/** Graph definitions for board content (DogTrainer::API#graphdef): a
    time-series chart with one line request per query and, when markers are
    given, one dashed error marker per marker. */
module Graphs {
  import opened Values

  /** One line request for a query. */
  function LineRequest(q: Value): Value
  {
    VHash(map["q" := q, "conditional_formats" := VList([]), "type" := VStr("line")])
  }

  /** One marker; `show` is Ruby's `to_s` of the marker value. */
  function Marker(name: string, val: Value, show: Value -> string): Value
  {
    VHash(map[
      "type" := VStr("error dashed"),
      "val" := VStr(show(val)),
      "value" := VStr("y = " + show(val)),
      "label" := VStr(name + "==" + show(val))])
  }

  /** A single query stands for a one-element array of queries. */
  function QueryList(queries: Value): seq<Value>
  {
    if queries.VList? then queries.items else [queries]
  }

  /** The markers hash is given as its entries in insertion order. */
  method Graphdef(title: string, queries: Value, markers: seq<(string, Value)>, show: Value -> string)
    returns (d: Value)
    ensures d.VHash? && d.fields.Keys == {"definition", "title"} && d.fields["title"] == VStr(title)
    ensures var def := Fields(Field(d, "definition"));
      && Field(d, "definition").VHash?
      && def.Keys == {"viz", "requests"} + (if |markers| == 0 then {} else {"markers"})
      && def["viz"] == VStr("timeseries")
    ensures var requests := Field(Field(d, "definition"), "requests");
      && requests.VList? && |requests.items| == |QueryList(queries)|
      && forall i :: 0 <= i < |requests.items| ==> requests.items[i] == LineRequest(QueryList(queries)[i])
    ensures |markers| > 0 ==>
      var ms := Field(Field(d, "definition"), "markers");
      && ms.VList? && |ms.items| == |markers|
      && forall i :: 0 <= i < |ms.items| ==> ms.items[i] == Marker(markers[i].0, markers[i].1, show)
  {
    var qs := QueryList(queries);
    var requests: seq<Value> := [];
    for i := 0 to |qs|
      invariant |requests| == i
      invariant forall j :: 0 <= j < i ==> requests[j] == LineRequest(qs[j])
    {
      requests := requests + [LineRequest(qs[i])];
    }
    var definition := map["viz" := VStr("timeseries"), "requests" := VList(requests)];
    if |markers| > 0 {
      var ms: seq<Value> := [];
      for i := 0 to |markers|
        invariant |ms| == i
        invariant forall j :: 0 <= j < i ==> ms[j] == Marker(markers[j].0, markers[j].1, show)
      {
        var (name, val) := markers[i];
        ms := ms + [Marker(name, val, show)];
      }
      definition := definition["markers" := VList(ms)];
    }
    d := VHash(map["definition" := VHash(definition), "title" := VStr(title)]);
  }

  /** A marker's label is "name==value" and its value line "y = value". */
  lemma MarkerLabel(name: string, val: Value, show: Value -> string)
    ensures Field(Marker(name, val, show), "label") == VStr(name + "==" + show(val))
    ensures Field(Marker(name, val, show), "value") == VStr("y = " + show(val))
    ensures Field(Marker(name, val, show), "type") == VStr("error dashed")
  {
  }
}
