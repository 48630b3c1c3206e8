/**
 * Reporting Terraform's outputs after a successful apply: a header when there
 * are any outputs, then one `key = value` line per output that is not marked
 * sensitive, in the order ranging over the output map visits the keys.
 */
module Outputs {
  import opened Deployment

  const Header := "Terraform outputs:"

  function FormatOutput(key: string, value: string): string {
    key + " = " + value
  }

  predicate NonSensitive(outputs: map<string, OutputMeta>, key: string) {
    key in outputs && !outputs[key].sensitive
  }

  predicate Distinct(s: seq<string>) {
    forall i, j :: 0 <= i < j < |s| ==> s[i] != s[j]
  }

  /** `order` visits every key of `outputs` exactly once, as Go's range over a map does. */
  predicate IsEnumeration(order: seq<string>, outputs: map<string, OutputMeta>) {
    Distinct(order) &&
    (forall k :: k in outputs ==> k in order) &&
    (forall i :: 0 <= i < |order| ==> order[i] in outputs)
  }

  /** The keys whose lines are printed, in visiting order. */
  function PrintedKeys(outputs: map<string, OutputMeta>, order: seq<string>): seq<string> {
    if order == [] then []
    else (if NonSensitive(outputs, order[0]) then [order[0]] else []) + PrintedKeys(outputs, order[1..])
  }

  /** The `key = value` lines, sensitive outputs skipped. */
  function KeyLines(outputs: map<string, OutputMeta>, order: seq<string>): seq<Action> {
    if order == [] then []
    else
      var key := order[0];
      (if NonSensitive(outputs, key) then [PrintLine(FormatOutput(key, outputs[key].value))] else [])
      + KeyLines(outputs, order[1..])
  }

  /** Everything displayTerraformOutputs prints. */
  function OutputLines(outputs: map<string, OutputMeta>, order: seq<string>): seq<Action> {
    (if |outputs| > 0 then [PrintLine(Header)] else []) + KeyLines(outputs, order)
  }

  /** Line j is the line of the j-th printed key, and that key is a non-sensitive output. */
  lemma {:induction false} KeyLinesFollowKeys(outputs: map<string, OutputMeta>, order: seq<string>)
    ensures var keys, lines := PrintedKeys(outputs, order), KeyLines(outputs, order);
      |lines| == |keys| &&
      forall j :: 0 <= j < |keys| ==>
        NonSensitive(outputs, keys[j]) &&
        lines[j] == PrintLine(FormatOutput(keys[j], outputs[keys[j]].value))
  {
    if order != [] {
      KeyLinesFollowKeys(outputs, order[1..]);
    }
  }

  lemma {:induction false} PrintedKeysFrom(outputs: map<string, OutputMeta>, order: seq<string>)
    requires Distinct(order)
    ensures var keys := PrintedKeys(outputs, order);
      Distinct(keys) && forall k :: k in keys <==> k in order && NonSensitive(outputs, k)
  {
    if order != [] {
      assert Distinct(order[1..]);
      PrintedKeysFrom(outputs, order[1..]);
      assert order[0] !in order[1..];
    }
  }

  lemma {:induction false} DistinctCardinality(s: seq<string>)
    requires Distinct(s)
    ensures |set k | k in s| == |s|
  {
    if s != [] {
      assert Distinct(s[1..]);
      DistinctCardinality(s[1..]);
      assert (set k | k in s) == {s[0]} + (set k | k in s[1..]);
      assert s[0] !in s[1..];
    }
  }

  lemma {:induction false} DistinctMultiplicity(s: seq<string>)
    requires Distinct(s)
    ensures forall k :: multiset(s)[k] == if k in s then 1 else 0
  {
    if s != [] {
      assert Distinct(s[1..]);
      DistinctMultiplicity(s[1..]);
      assert s == [s[0]] + s[1..];
      assert multiset(s) == multiset([s[0]]) + multiset(s[1..]);
      assert s[0] !in s[1..];
    }
  }

  function NonSensitiveKeys(outputs: map<string, OutputMeta>): set<string> {
    set k | k in outputs && !outputs[k].sensitive
  }

  /**
   * Exactly the non-sensitive outputs are printed, one line each: the
   * printed keys are distinct, they are the non-sensitive keys, and there
   * are as many lines as non-sensitive outputs.
   */
  lemma PrintedKeysExact(outputs: map<string, OutputMeta>, order: seq<string>)
    requires IsEnumeration(order, outputs)
    ensures var keys := PrintedKeys(outputs, order);
      Distinct(keys) &&
      (forall k :: k in keys <==> k in outputs && !outputs[k].sensitive) &&
      |KeyLines(outputs, order)| == |keys| == |NonSensitiveKeys(outputs)|
  {
    var keys := PrintedKeys(outputs, order);
    PrintedKeysFrom(outputs, order);
    KeyLinesFollowKeys(outputs, order);
    DistinctCardinality(keys);
    assert (set k | k in keys) == NonSensitiveKeys(outputs);
  }

  /** The keys printed do not depend on the order the map is visited in. */
  lemma PrintedKeysOrderIrrelevant(outputs: map<string, OutputMeta>, o1: seq<string>, o2: seq<string>)
    requires IsEnumeration(o1, outputs) && IsEnumeration(o2, outputs)
    ensures multiset(PrintedKeys(outputs, o1)) == multiset(PrintedKeys(outputs, o2))
  {
    var k1, k2 := PrintedKeys(outputs, o1), PrintedKeys(outputs, o2);
    PrintedKeysExact(outputs, o1);
    PrintedKeysExact(outputs, o2);
    DistinctMultiplicity(k1);
    DistinctMultiplicity(k2);
    assert forall k :: multiset(k1)[k] == multiset(k2)[k];
  }

  /**
   * The header is printed exactly when there are outputs, even when all of
   * them are sensitive; no outputs means nothing is printed at all.
   */
  lemma HeaderIffOutputs(outputs: map<string, OutputMeta>, order: seq<string>)
    ensures |outputs| == 0 ==> OutputLines(outputs, order) == []
    ensures |outputs| > 0 <==> |OutputLines(outputs, order)| > 0 && OutputLines(outputs, order)[0] == PrintLine(Header)
    ensures NonSensitiveKeys(outputs) == {} ==> OutputLines(outputs, order) == if |outputs| > 0 then [PrintLine(Header)] else []
  {
    KeyLinesFollowKeys(outputs, order);
    if |PrintedKeys(outputs, order)| > 0 {
      var keys := PrintedKeys(outputs, order);
      assert keys[0] in NonSensitiveKeys(outputs);
    }
  }

  /**
   * A sensitive value never reaches the output: whatever value a sensitive
   * output holds, exactly the same lines are printed.
   */
  lemma SensitiveValueHidden(outputs: map<string, OutputMeta>, order: seq<string>, key: string, v: string)
    requires key in outputs && outputs[key].sensitive
    ensures OutputLines(outputs[key := OutputMeta(v, true)], order) == OutputLines(outputs, order)
  {
    KeyLinesIgnoreSensitive(outputs, order, key, v);
    assert outputs[key := OutputMeta(v, true)].Keys == outputs.Keys;
  }

  lemma {:induction false} KeyLinesIgnoreSensitive(outputs: map<string, OutputMeta>, order: seq<string>, key: string, v: string)
    requires key in outputs && outputs[key].sensitive
    ensures KeyLines(outputs[key := OutputMeta(v, true)], order) == KeyLines(outputs, order)
  {
    if order != [] {
      KeyLinesIgnoreSensitive(outputs, order[1..], key, v);
    }
  }

  /** Reporting only prints. */
  lemma OutputLinesOnlyPrint(outputs: map<string, OutputMeta>, order: seq<string>)
    ensures forall i :: 0 <= i < |OutputLines(outputs, order)| ==> OutputLines(outputs, order)[i].PrintLine?
  {
    KeyLinesFollowKeys(outputs, order);
    var lines := OutputLines(outputs, order);
    var body := KeyLines(outputs, order);
    var h := |lines| - |body|;
    assert forall i :: h <= i < |lines| ==> lines[i] == body[i - h];
  }

  /** One plain and one sensitive output: only the plain one is printed, after the header. */
  lemma ReportExample()
    ensures var outputs := map["url" := OutputMeta("https://x", false), "secret" := OutputMeta("abc", true)];
      OutputLines(outputs, ["url", "secret"]) == [PrintLine(Header), PrintLine("url = https://x")]
  {
    var outputs := map["url" := OutputMeta("https://x", false), "secret" := OutputMeta("abc", true)];
    assert |outputs| == 2 by {
      assert outputs.Keys == {"url", "secret"};
    }
    assert ["url", "secret"][1..] == ["secret"];
    assert ["secret"][1..] == [];
    assert KeyLines(outputs, ["secret"]) == [];
    assert FormatOutput("url", "https://x") == "url = https://x";
    assert KeyLines(outputs, ["url", "secret"]) == [PrintLine("url = https://x")] + [];
  }

  /**
   * displayTerraformOutputs: the header when there are outputs, then a line
   * per visited key, skipping the sensitive ones.
   */
  method DisplayOutputs(outputs: map<string, OutputMeta>, order: seq<string>) returns (lines: seq<Action>)
    ensures lines == OutputLines(outputs, order)
  {
    lines := [];
    if |outputs| > 0 {
      lines := [PrintLine(Header)];
    }
    assert order[0..] == order;
    for i := 0 to |order|
      invariant lines + KeyLines(outputs, order[i..]) == OutputLines(outputs, order)
    {
      var key := order[i];
      assert order[i..][1..] == order[i + 1..];
      if key in outputs && !outputs[key].sensitive {
        lines := lines + [PrintLine(FormatOutput(key, outputs[key].value))];
      }
    }
    assert order[|order|..] == [];
    assert lines + [] == lines;
  }
}
