/** Feature gates: the operator writes a set of names as a command line flag
    (`StringifyFeatureGates`), and each component parses the flag (`FeatureGate.Set`) and asks
    `Enabled`.
 */
module Features {
  import opened Options
  import opened Strings
  import StringSets

  // ----- strings

  /** `unicode.IsSpace`. */
  predicate IsSpace(c: char) {
    || '\t' <= c <= '\r' || c == ' ' || c == '\U{85}' || c == '\U{A0}' || c == '\U{1680}'
    || '\U{2000}' <= c <= '\U{200A}' || c == '\U{2028}' || c == '\U{2029}'
    || c == '\U{202F}' || c == '\U{205F}' || c == '\U{3000}'
  }

  /** `strings.TrimSpace`. */
  function TrimSpace(s: string): string {
    if s == "" then ""
    else if IsSpace(s[0]) then TrimSpace(s[1..])
    else if IsSpace(s[|s| - 1]) then TrimSpace(s[..|s| - 1])
    else s
  }

  predicate IsTrimmed(s: string) {
    s != "" ==> !IsSpace(s[0]) && !IsSpace(s[|s| - 1])
  }

  predicate AllSpace(s: string, from: nat, to: nat)
    requires from <= to <= |s|
  {
    forall k :: from <= k < to ==> IsSpace(s[k])
  }

  /** Trimming takes white space off both ends, all of it and nothing else. */
  lemma {:induction false} TrimSpaceTrims(s: string) returns (i: nat, j: nat)
    ensures i <= j <= |s| && TrimSpace(s) == s[i..j] && AllSpace(s, 0, i) && AllSpace(s, j, |s|)
    ensures IsTrimmed(TrimSpace(s))
  {
    i, j := 0, |s|;
    if |s| > 0 {
      if IsSpace(s[0]) {
        i, j := TrimSpaceTrims(s[1..]);
        assert s[1..][i..j] == s[i + 1..j + 1];
        assert forall k :: 0 < k < |s| ==> s[k] == s[1..][k - 1];
        i, j := i + 1, j + 1;
      } else if IsSpace(s[|s| - 1]) {
        i, j := TrimSpaceTrims(s[..|s| - 1]);
        assert s[..|s| - 1][i..j] == s[i..j];
      }
    }
  }

  /** White space up to U+00FF. */
  lemma LatinSpace(c: char)
    requires c < '\U{100}'
    ensures IsSpace(c) <==> c in [' ', '\t', '\n', '\U{B}', '\U{C}', '\r', '\U{85}', '\U{A0}']
  {
  }

  /** `strconv.ParseBool`. */
  function ParseBool(v: string): Option<bool> {
    if v in ["1", "t", "T", "TRUE", "true", "True"] then Some(true)
    else if v in ["0", "f", "F", "FALSE", "false", "False"] then Some(false)
    else None
  }

  /** Where the first `c` is, or the length if there is none. */
  function IndexOf(s: string, c: char): (i: nat)
    ensures i <= |s| && c !in s[..i] && (i < |s| ==> s[i] == c)
  {
    if s == "" || s[0] == c then 0
    else
      var i := IndexOf(s[1..], c);
      assert s[..i + 1] == [s[0]] + s[1..][..i];
      i + 1
  }

  // ----- parsing

  /** An item without `=`, or one whose right side is not a bool. */
  datatype ParseError = MissingValue(item: string) | InvalidValue(value: string, key: string)

  datatype Item = Blank | Malformed(error: ParseError) | Assignment(key: string, value: bool)

  /** One item between commas: cut at its first `=`, both sides trimmed. */
  function ParseItem(s: string): Item {
    var i := IndexOf(s, '=');
    if s == "" then Blank
    else if i == |s| then Malformed(MissingValue(s))
    else
      var key, text := TrimSpace(s[..i]), TrimSpace(s[i + 1..]);
      match ParseBool(text)
      case None => Malformed(InvalidValue(text, key))
      case Some(value) => Assignment(key, value)
  }

  datatype Outcome = Outcome(gates: map<string, bool>, error: Option<ParseError>)

  /** Items are applied in order up to the first malformed one. */
  function Applied(items: seq<string>, gates: map<string, bool>): Outcome {
    if items == [] then Outcome(gates, None)
    else match ParseItem(items[0])
         case Blank => Applied(items[1..], gates)
         case Malformed(error) => Outcome(gates, Some(error))
         case Assignment(key, value) => Applied(items[1..], gates[key := value])
  }

  predicate EnabledIn(gates: map<string, bool>, feature: string) {
    feature in gates && gates[feature]
  }

  class FeatureGate {
    var gates: map<string, bool>

    constructor ()
      ensures gates == map[]
    {
      gates := map[];
    }

    method Set(s: string) returns (error: Option<ParseError>)
      modifies this
      ensures Outcome(gates, error) == Applied(Split(s, ','), old(gates))
    {
      var items := Split(s, ',');
      for i := 0 to |items|
        invariant Applied(items[i..], gates) == Applied(items, old(gates))
      {
        var item := items[i];
        assert items[i..][1..] == items[i + 1..];
        if |item| == 0 {
          continue;
        }
        var cut := IndexOf(item, '=');
        if cut == |item| {
          return Some(MissingValue(item));
        }
        var key, value := TrimSpace(item[..cut]), TrimSpace(item[cut + 1..]);
        var parsed := ParseBool(value);
        if parsed.None? {
          return Some(InvalidValue(value, key));
        }
        gates := gates[key := parsed.value];
      }
      error := None;
    }

    predicate Enabled(feature: string)
      reads this
    {
      EnabledIn(gates, feature)
    }
  }

  method NewFeatures(rawFeatures: string) returns (gate: FeatureGate, error: Option<ParseError>)
    ensures fresh(gate) && Outcome(gate.gates, error) == Applied(Split(rawFeatures, ','), map[])
  {
    gate := new FeatureGate();
    error := gate.Set(rawFeatures);
  }

  // ----- what parsing means

  /** Setting `a,b` is setting `a` and, if that succeeds, `b`; otherwise it ends with the gates and
      the error of `a`.
   */
  lemma SetInTwoSteps(a: string, b: string, gates: map<string, bool>)
    ensures var first := Applied(Split(a, ','), gates);
            Applied(Split(a + "," + b, ','), gates) == if first.error.None? then Applied(Split(b, ','), first.gates) else first
  {
    SplitAtSeparator(a, b, ',');
    AppliedInTwoSteps(Split(a, ','), Split(b, ','), gates);
  }

  lemma {:induction false} AppliedInTwoSteps(a: seq<string>, b: seq<string>, gates: map<string, bool>)
    ensures var first := Applied(a, gates);
            Applied(a + b, gates) == if first.error.None? then Applied(b, first.gates) else first
  {
    if a == [] {
      assert a + b == b;
    } else {
      assert (a + b)[1..] == a[1..] + b;
      var item := ParseItem(a[0]);
      if item.Blank? {
        AppliedInTwoSteps(a[1..], b, gates);
      } else if item.Assignment? {
        AppliedInTwoSteps(a[1..], b, gates[item.key := item.value]);
      }
    }
  }

  predicate Assigns(item: string, key: string) {
    ParseItem(item).Assignment? && ParseItem(item).key == key
  }

  /** Item i assigns to a key and no later one does. */
  ghost predicate LastAssignment(items: seq<string>, i: int, key: string) {
    0 <= i < |items| && Assigns(items[i], key) && forall j :: i < j < |items| ==> !Assigns(items[j], key)
  }

  /** What a gate holds for a key is what the last assignment says, or what it held before. */
  ghost predicate Decided(items: seq<string>, gates: map<string, bool>, key: string, gates': map<string, bool>) {
    && (forall i :: LastAssignment(items, i, key) ==>
          key in gates' && gates'[key] == ParseItem(items[i]).value && (EnabledIn(gates', key) <==> ParseItem(items[i]).value))
    && ((forall i :: 0 <= i < |items| ==> !Assigns(items[i], key)) ==>
          (key in gates' <==> key in gates) && (key in gates' ==> gates'[key] == gates[key]))
  }

  /** On success the last assignment of a key decides; keys not assigned to keep their value. */
  lemma {:induction false} LastAssignmentDecides(items: seq<string>, gates: map<string, bool>, key: string)
    requires Applied(items, gates).error.None?
    ensures Decided(items, gates, key, Applied(items, gates).gates)
  {
    if items != [] {
      var item := ParseItem(items[0]);
      var gates' := if item.Assignment? then gates[item.key := item.value] else gates;
      LastAssignmentDecides(items[1..], gates', key);
      DecidedEarlier(items, gates, gates', key, Applied(items, gates).gates);
    }
  }

  lemma DecidedEarlier(items: seq<string>, gates: map<string, bool>, gates': map<string, bool>, key: string, r: map<string, bool>)
    requires items != [] && Decided(items[1..], gates', key, r)
    requires var item := ParseItem(items[0]); gates' == if item.Assignment? then gates[item.key := item.value] else gates
    ensures Decided(items, gates, key, r)
  {
    var rest := items[1..];
    assert forall j :: 0 <= j < |rest| ==> rest[j] == items[j + 1];
    forall i | LastAssignment(items, i, key)
      ensures key in r && r[key] == ParseItem(items[i]).value && (EnabledIn(r, key) <==> ParseItem(items[i]).value)
    {
      if i > 0 {
        assert LastAssignment(rest, i - 1, key);
      } else {
        assert forall j :: 0 <= j < |rest| ==> !Assigns(rest[j], key);
      }
    }
  }

  /** Exactly the listed spellings are read as a bool. */
  lemma BoolSpellings(v: string)
    ensures ParseBool(v) == Some(true) <==> v == "1" || v == "t" || v == "T" || v == "TRUE" || v == "true" || v == "True"
    ensures ParseBool(v) == Some(false) <==> v == "0" || v == "f" || v == "F" || v == "FALSE" || v == "false" || v == "False"
  {
  }

  /** Two features as a flag sets them: each is enabled exactly if its text says so. */
  lemma TwoFeatures(a: string, b: string, gates: map<string, bool>)
    requires ',' !in a && ',' !in b && ParseItem(a).Assignment? && ParseItem(b).Assignment? && ParseItem(a).key != ParseItem(b).key
    ensures var r := Applied(Split(a + [','] + b, ','), gates);
            && r.error.None?
            && (EnabledIn(r.gates, ParseItem(a).key) <==> ParseItem(a).value)
            && (EnabledIn(r.gates, ParseItem(b).key) <==> ParseItem(b).value)
  {
    SplitAtSeparator(a, b, ',');
    SplitWithoutSeparator(a, ',');
    SplitWithoutSeparator(b, ',');
    InTurn(a, b, gates);
  }

  lemma InTurn(a: string, b: string, gates: map<string, bool>)
    requires ParseItem(a).Assignment? && ParseItem(b).Assignment?
    ensures var p, q := ParseItem(a), ParseItem(b);
            Applied([a] + [b], gates) == Outcome(gates[p.key := p.value][q.key := q.value], None)
  {
    var items, p, q := [a] + [b], ParseItem(a), ParseItem(b);
    var rest := items[1..];
    var none, gates' := rest[1..], gates[p.key := p.value];
    assert items[0] == a && rest[0] == b && |none| == 0;
    assert Applied(items, gates) == Applied(rest, gates');
    assert Applied(rest, gates') == Applied(none, gates'[q.key := q.value]);
  }

  /** An item that sets a name to a bool. */
  lemma Spelled(name: string, text: string, value: bool)
    requires IsName(name) && IsTrimmed(text) && text != "" && ParseBool(text) == Some(value)
    ensures ParseItem(name + "=" + text) == Assignment(name, value)
  {
    var s := name + "=" + text;
    var i := IndexOf(s, '=');
    assert forall k :: 0 <= k < |name| ==> s[k] == name[k];
    assert s[|name|] == '=';
    assert s[..i] == name && s[i + 1..] == text;
  }

  // ----- the round trip through the command line

  /** A name that an item can assign to. */
  predicate IsName(s: string) {
    ',' !in s && '=' !in s && IsTrimmed(s)
  }

  function Flags(names: seq<string>): seq<string> {
    seq(|names|, i requires 0 <= i < |names| => names[i] + "=true")
  }

  function Flag(names: set<string>): string {
    Join(Flags(StringSets.List(names)), ',')
  }

  /** `StringifyFeatureGates`, and the API deployment's copy of it. */
  method StringifyFeatureGates(names: set<string>) returns (flag: string)
    ensures flag == Flag(names)
  {
    var list := StringSets.List(names);
    var features: seq<string> := [];
    for i := 0 to |list|
      invariant features == Flags(list[..i])
    {
      features := features + [list[i] + "=true"];
    }
    assert list[..|list|] == list;
    flag := Join(features, ',');
  }

  lemma NameParses(name: string)
    requires IsName(name)
    ensures ParseItem(name + "=true") == Assignment(name, true)
  {
    Spelled(name, "true", true);
    assert name + "=true" == name + "=" + "true";
  }

  lemma {:induction false} NamesParse(names: seq<string>, gates: map<string, bool>)
    requires forall name :: name in names ==> IsName(name)
    ensures Applied(Flags(names), gates).error.None?
    ensures forall f :: EnabledIn(Applied(Flags(names), gates).gates, f) <==> f in names || EnabledIn(gates, f)
  {
    if names != [] {
      NameParses(names[0]);
      assert Flags(names)[1..] == Flags(names[1..]);
      NamesParse(names[1..], gates[names[0] := true]);
      assert forall f :: f in names <==> f == names[0] || f in names[1..];
    }
  }

  /** Whatever is parsed, every key that gets assigned is a name. */
  lemma {:induction false} KeysAreNames(items: seq<string>, gates: map<string, bool>)
    requires forall i :: 0 <= i < |items| ==> ',' !in items[i]
    requires forall key :: key in gates ==> IsName(key)
    ensures forall key :: key in Applied(items, gates).gates ==> IsName(key)
  {
    if items != [] {
      var item := ParseItem(items[0]);
      var i := IndexOf(items[0], '=');
      var from, to := TrimSpaceTrims(items[0][..i]);
      assert item.Assignment? ==> IsName(item.key);
      KeysAreNames(items[1..], if item.Assignment? then gates[item.key := item.value] else gates);
    }
  }

  /** A component sees exactly the configured features enabled if and only if every configured
      feature is a name: free of commas and equals signs, and trimmed. Then parsing succeeds.
   */
  lemma FlagRoundTrip(features: set<string>)
    ensures var r := Applied(Split(Flag(features), ','), map[]);
            && ((forall f :: EnabledIn(r.gates, f) <==> f in features) <==> (forall f :: f in features ==> IsName(f)))
            && ((forall f :: f in features ==> IsName(f)) ==> r.error.None?)
  {
    if forall f :: f in features ==> IsName(f) {
      NamesRoundTrip(features);
    } else {
      var f :| f in features && !IsName(f);
      var items := Split(Flag(features), ',');
      SplitPartsAreSeparatorFree(Flag(features), ',');
      KeysAreNames(items, map[]);
      assert !EnabledIn(Applied(items, map[]).gates, f);
    }
  }

  lemma NamesRoundTrip(features: set<string>)
    requires forall f :: f in features ==> IsName(f)
    ensures var r := Applied(Split(Flag(features), ','), map[]);
            r.error.None? && forall f :: EnabledIn(r.gates, f) <==> f in features
  {
    var list := StringSets.List(features);
    StringSets.ListIsSorted(features);
    assert forall f :: f in list ==> IsName(f);
    NamesParse(list, map[]);
    if |list| > 0 {
      assert forall i :: 0 <= i < |list| ==> list[i] in list;
      SplitJoin(Flags(list), ',');
    } else {
      NoFeatures(Split(Flag(features), ','), map[]);
    }
  }

  lemma NoFeatures(items: seq<string>, gates: map<string, bool>)
    requires |items| == 1 && |items[0]| == 0
    ensures Applied(items, gates) == Outcome(gates, None)
  {
    assert |items[1..]| == 0;
  }
}
