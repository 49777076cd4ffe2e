/** app/tools/registry.py and the bridge record of app/schemas/internal.py. */
module Registry {
  import opened Values
  import opened Wrappers
  import opened Strings

  datatype Builtin = WebSearchTool | FileSearchTool

  datatype BridgeSpec = BridgeSpec(tool: Builtin, queryCandidates: seq<string>)

  function FindBridge(name: string): Option<BridgeSpec> {
    if name == "web_search" || name == "search_web" || name == "browser_search" then
      Some(BridgeSpec(WebSearchTool, ["query", "q", "text"]))
    else if name == "file_search" then
      Some(BridgeSpec(FileSearchTool, ["query", "queries", "q", "text"]))
    else None
  }

  predicate Bridged(name: Option<string>) {
    name.Some? && FindBridge(name.value).Some?
  }

  /** " ".join(v for v in values if v.strip()), for a list of strings */
  function JoinNonBlank(values: seq<Value>): string
    requires forall v | v in values :: v.Str?
  {
    if values == [] then ""
    else
      var rest, last := JoinNonBlank(values[..|values| - 1]), values[|values| - 1].s;
      if Strip(last) == "" then rest else if rest == "" then last else rest + " " + last
  }

  /** The first candidate field that holds a usable query; a list of strings settles the matter even when blank. */
  function ExtractBridgeQuery(arguments: Value, candidates: seq<string>): Option<string> {
    if candidates == [] then None
    else
      var v := Get(arguments, candidates[0]);
      if v.Str? && Strip(v.s) != "" then Some(Strip(v.s))
      else if v.List? && v.items != [] && forall x | x in v.items :: x.Str? then
        var joined := Strip(JoinNonBlank(v.items));
        if joined == "" then None else Some(joined)
      else ExtractBridgeQuery(arguments, candidates[1..])
  }

  predicate Texts(v: Value) {
    v.List? && v.items != [] && forall x | x in v.items :: x.Str?
  }

  /** The search for a query stops at such a value. */
  predicate Settles(v: Value) {
    (v.Str? && Strip(v.s) != "") || Texts(v)
  }

  /** The texts that are not blank, in order. */
  function NonBlank(values: seq<Value>): (r: seq<string>) {
    if values == [] then []
    else
      var v := values[|values| - 1];
      NonBlank(values[..|values| - 1]) + if v.Str? && !AllSpace(v.s) then [v.s] else []
  }

  /** The texts with one space between any two. */
  function Spaced(texts: seq<string>): string {
    if texts == [] then "" else if |texts| == 1 then texts[0] else texts[0] + " " + Spaced(texts[1..])
  }

  lemma {:induction false} SpacedSnoc(texts: seq<string>, t: string)
    ensures Spaced(texts + [t]) == if texts == [] then t else Spaced(texts) + " " + t
  {
    if |texts| > 1 {
      assert (texts + [t])[1..] == texts[1..] + [t];
      SpacedSnoc(texts[1..], t);
      assert texts[0] + " " + (Spaced(texts[1..]) + " " + t) == texts[0] + " " + Spaced(texts[1..]) + " " + t;
    } else if |texts| == 1 {
      assert (texts + [t])[1..] == [t];
    }
  }

  lemma {:induction false} JoinedIsSpaced(values: seq<Value>)
    requires forall v | v in values :: v.Str?
    ensures JoinNonBlank(values) == Spaced(NonBlank(values))
    ensures JoinNonBlank(values) == "" <==> NonBlank(values) == []
  {
    if values != [] {
      var before, v := values[..|values| - 1], values[|values| - 1];
      assert v in values;
      JoinedIsSpaced(before);
      StripTrims(v.s);
      SpacedSnoc(NonBlank(before), v.s);
      hide Spaced, Strip;
      if AllSpace(v.s) { assert NonBlank(before) + [] == NonBlank(before); }
    }
  }

  function Words(v: Value): string
    requires Settles(v)
  {
    Strip(if v.Str? then v.s else Spaced(NonBlank(v.items)))
  }

  /**
   The query is what the first settling candidate holds, whatever later candidates hold: blank strings and other
   types are passed over, a list of blank strings is not. A query is never blank and carries no outer white space.
   */
  lemma {:induction false} QueryOfFirstSettled(arguments: Value, candidates: seq<string>, i: nat)
    requires i <= |candidates|
    requires forall j | 0 <= j < i :: !Settles(Get(arguments, candidates[j]))
    requires i < |candidates| ==> Settles(Get(arguments, candidates[i]))
    ensures ExtractBridgeQuery(arguments, candidates) ==
            if i == |candidates| || Words(Get(arguments, candidates[i])) == "" then None
            else Some(Words(Get(arguments, candidates[i])))
    ensures var q := ExtractBridgeQuery(arguments, candidates);
            q.Some? ==> q.value != "" && Trimmed(q.value) && Strip(q.value) == q.value
  {
    if i > 0 {
      QueryOfFirstSettled(arguments, candidates[1..], i - 1);
    } else if candidates != [] {
      var v := Get(arguments, candidates[0]);
      if Texts(v) { JoinedIsSpaced(v.items); }
      StripTrims(if v.Str? then v.s else Spaced(NonBlank(v.items)));
      StripTrims(Words(v));
    }
  }

  datatype BridgeExecution = BridgeExecution(tool: Builtin, displayName: Option<string>, query: Option<string>)
}
