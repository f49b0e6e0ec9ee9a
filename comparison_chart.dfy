/**
 * The trend chart of the comparison page (`ComparisonLineChart`): the two queries' sentiment
 * series merged index by index into the rows of one line chart.
 */
module ComparisonChart {

  /** A point of a trend series: its x-axis label and its sentiment as text. */
  datatype TrendPoint = TrendPoint(name: string, sentiment: string)

  /** A value of a chart row: a string, a number or null. */
  datatype Value = Str(s: string) | Number(x: real) | Null

  /** The object literal `{ name, [label1]: v1, [label2]: v2 }`: a later key overwrites an equal earlier one. */
  function Row(name: string, label1: string, v1: Value, label2: string, v2: Value): map<string, Value> {
    map["name" := Str(name)][label1 := v1][label2 := v2]
  }

  /**
   * `combinedData`: one row per point of the first series, with the second series' value at
   * the same index, or null where the second series is shorter. `parseFloat` is a parameter.
   */
  function CombinedData(data1: seq<TrendPoint>, data2: seq<TrendPoint>, label1: string, label2: string,
                        parseFloat: string -> real): seq<map<string, Value>> {
    seq(|data1|, i requires 0 <= i < |data1| =>
      Row(data1[i].name, label1, Number(parseFloat(data1[i].sentiment)), label2,
          if i < |data2| then Number(parseFloat(data2[i].sentiment)) else Null))
  }

  /**
   * The merged rows: as many as points in the first series (later points of the second are
   * dropped); row i is named after the first series' point i, holds its parsed sentiment
   * under `label1` and the second series' under `label2`, null past its end; when both
   * labels are equal the one key holds the second series' value.
   */
  lemma CombinedSpec(data1: seq<TrendPoint>, data2: seq<TrendPoint>, label1: string, label2: string,
                     parseFloat: string -> real, r: seq<map<string, Value>>)
    requires r == CombinedData(data1, data2, label1, label2, parseFloat)
    ensures |r| == |data1|
    ensures forall i :: 0 <= i < |r| ==> r[i].Keys == {"name", label1, label2}
    ensures forall i :: 0 <= i < |r| && label1 != "name" && label2 != "name" ==> r[i]["name"] == Str(data1[i].name)
    ensures forall i :: 0 <= i < |r| && label1 != label2 ==> r[i][label1] == Number(parseFloat(data1[i].sentiment))
    ensures forall i :: 0 <= i < |r| ==>
              r[i][label2] == if i < |data2| then Number(parseFloat(data2[i].sentiment)) else Null
  {
    forall i | 0 <= i < |r| ensures r[i].Keys == {"name", label1, label2} {
      var k := r[i].Keys;
      assert forall x :: x in k <==> x == "name" || x == label1 || x == label2;
    }
  }
}
