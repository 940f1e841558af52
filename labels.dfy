/**
 * The fixed label vocabulary, the checkbox variables that hold the operator's
 * choice, the digit shortcuts and the text the labels are saved as.
 */
module Labels {

  /** The checkbox labels, in the order the checkboxes are created. */
  const VOCABULARY: seq<string> :=
    ["Speech", "Noise", "Music", "Happy", "Sad", "Angry", "English", "Telugu"]

  /** The digit keys bound to the checkboxes. */
  const LABEL_KEYS: map<char, string> :=
    map['1' := "Speech", '2' := "Noise", '3' := "Music", '4' := "Happy",
        '5' := "Sad", '6' := "Angry", '7' := "English", '8' := "Telugu"]

  /** The saved labels are joined with this separator. */
  const SEPARATOR: string := ", "

  /** A checkbox variable per label: `vars[l]` is the IntVar of label `l`. */
  type LabelVars = map<string, int>

  /** The shape the checkbox variables always have: one per label, each 0 or 1. */
  predicate WellFormed(vars: LabelVars) {
    vars.Keys == (set l | l in VOCABULARY) && forall l :: l in vars ==> vars[l] == 0 || vars[l] == 1
  }

  /** Every checkbox cleared, as after creation and after a save. */
  function Unchecked(): (vars: LabelVars)
    ensures WellFormed(vars)
    ensures forall l :: l in vars ==> vars[l] == 0
  {
    map l | l in VOCABULARY :: 0
  }

  /** The toggled value of one checkbox variable: 1 becomes 0, anything else becomes 1. */
  function Flip(v: int): (r: int)
    ensures r == 0 || r == 1
    ensures (v == 0 || v == 1) ==> r != v
  {
    if v == 1 then 0 else 1
  }

  /** Toggling label `name`: flips its variable if it has one, otherwise changes nothing. */
  function Toggle(vars: LabelVars, name: string): (r: LabelVars)
    ensures r.Keys == vars.Keys
    ensures forall l :: l in vars && l != name ==> r[l] == vars[l]
    ensures name in vars ==> r[name] == Flip(vars[name])
    ensures name !in vars ==> r == vars
  {
    if name in vars then vars[name := Flip(vars[name])] else vars
  }

  /** Toggling keeps the checkbox variables well formed. */
  lemma ToggleWellFormed(vars: LabelVars, name: string)
    requires WellFormed(vars)
    ensures WellFormed(Toggle(vars, name))
  {
  }

  /** Toggling the same label twice restores every checkbox. */
  lemma ToggleTwice(vars: LabelVars, name: string)
    requires WellFormed(vars)
    ensures Toggle(Toggle(vars, name), name) == vars
  {
  }

  /** The digit key of the checkbox at position `i`, counting from 0. */
  function KeyOf(i: nat): char
    requires i < 9
  {
    (i + '1' as int) as char
  }

  /** The digit keys are exactly '1' to '8'. */
  lemma LabelKeysDigits()
    ensures LABEL_KEYS.Keys == {'1', '2', '3', '4', '5', '6', '7', '8'}
  {
  }

  /** Each digit key '1'..'8' selects the label at the same position of the vocabulary. */
  lemma LabelKeysFollowVocabulary()
    ensures |VOCABULARY| == |LABEL_KEYS| == 8
    ensures forall i :: 0 <= i < |VOCABULARY| ==> KeyOf(i) in LABEL_KEYS && LABEL_KEYS[KeyOf(i)] == VOCABULARY[i]
  {
    LabelKeysDigits();
    forall i | 0 <= i < |VOCABULARY| ensures KeyOf(i) in LABEL_KEYS && LABEL_KEYS[KeyOf(i)] == VOCABULARY[i] {
      if i == 0 { assert KeyOf(i) == '1'; }
      else if i == 1 { assert KeyOf(i) == '2'; }
      else if i == 2 { assert KeyOf(i) == '3'; }
      else if i == 3 { assert KeyOf(i) == '4'; }
      else if i == 4 { assert KeyOf(i) == '5'; }
      else if i == 5 { assert KeyOf(i) == '6'; }
      else if i == 6 { assert KeyOf(i) == '7'; }
      else { assert KeyOf(i) == '8'; }
    }
  }

  /** No two digit keys select the same label. */
  lemma LabelKeysOneToOne()
    ensures forall k1, k2 :: k1 in LABEL_KEYS && k2 in LABEL_KEYS && LABEL_KEYS[k1] == LABEL_KEYS[k2] ==> k1 == k2
  {
  }

  /** The digit keys select exactly the labels of the vocabulary. */
  lemma LabelKeysCoverVocabulary()
    ensures LABEL_KEYS.Values == set l | l in VOCABULARY
  {
    LabelKeysFollowVocabulary();
    forall v | v in LABEL_KEYS.Values ensures v in VOCABULARY {
      var k :| k in LABEL_KEYS && LABEL_KEYS[k] == v;
      LabelKeysDigits();
    }
    forall i | 0 <= i < |VOCABULARY| ensures VOCABULARY[i] in LABEL_KEYS.Values {
      assert LABEL_KEYS[KeyOf(i)] == VOCABULARY[i];
    }
  }

  /** `order` lists no label twice. */
  predicate Distinct(order: seq<string>) {
    forall i, j :: 0 <= i < j < |order| ==> order[i] != order[j]
  }

  /** Where `l` stands in `order`. */
  function Position(order: seq<string>, l: string): (p: nat)
    requires l in order
    ensures p < |order| && order[p] == l
  {
    if order[0] == l then 0 else 1 + Position(order[1..], l)
  }

  /**
   * The checked labels, in the iteration order `order` of the checkbox
   * variables: a list comprehension over `label_vars.items()`.
   */
  function Checked(order: seq<string>, vars: LabelVars): (r: seq<string>)
    ensures |r| <= |order|
    ensures forall l :: l in r <==> l in order && l in vars && vars[l] == 1
  {
    if order == [] then []
    else (if order[0] in vars && vars[order[0]] == 1 then [order[0]] else [])
         + Checked(order[1..], vars)
  }

  /** A label after the first one of a repetition-free order stands one further on. */
  lemma PositionInTail(order: seq<string>, x: string)
    requires Distinct(order) && order != [] && x in order[1..]
    ensures x != order[0] && Position(order, x) == 1 + Position(order[1..], x)
  {
    var p := Position(order[1..], x);
    assert order[p + 1] == x;
  }

  /** The checked labels keep the order of `order` (the vocabulary order for the tool). */
  lemma {:induction false} CheckedInOrder(order: seq<string>, vars: LabelVars)
    requires Distinct(order)
    ensures Distinct(Checked(order, vars))
    ensures forall i, j :: 0 <= i < j < |Checked(order, vars)| ==>
              Position(order, Checked(order, vars)[i]) < Position(order, Checked(order, vars)[j])
  {
    if order != [] {
      var c := Checked(order, vars);
      var head := if order[0] in vars && vars[order[0]] == 1 then [order[0]] else [];
      var rest := Checked(order[1..], vars);
      assert c == head + rest;
      assert Distinct(order[1..]);
      CheckedInOrder(order[1..], vars);
      forall i, j | 0 <= i < j < |c| ensures Position(order, c[i]) < Position(order, c[j]) {
        var y := rest[j - |head|];
        assert c[j] == y && y in order[1..];
        PositionInTail(order, y);
        if i >= |head| {
          var x := rest[i - |head|];
          assert c[i] == x && x in order[1..];
          PositionInTail(order, x);
        }
      }
      forall i, j | 0 <= i < j < |c| ensures c[i] != c[j] {
        assert Position(order, c[i]) < Position(order, c[j]);
      }
    }
  }

  /** Python's `sep.join(parts)`. */
  function JoinWith(sep: string, parts: seq<string>): (r: string)
    ensures parts == [] ==> r == []
    ensures |parts| >= 1 ==> |parts[0]| <= |r| && r[..|parts[0]|] == parts[0]
    ensures |parts| >= 1 ==> |r| >= (|parts| - 1) * |sep|
  {
    if parts == [] then [] else if |parts| == 1 then parts[0] else parts[0] + sep + JoinWith(sep, parts[1..])
  }

  /** The saved `labels` field: the checked labels in vocabulary order, joined by ", ". */
  function LabelsText(vars: LabelVars): (r: string)
    ensures r == [] <==> Checked(VOCABULARY, vars) == []
  {
    var parts := Checked(VOCABULARY, vars);
    VocabularyWords();
    assert parts != [] ==> parts[0] in parts;
    JoinWith(SEPARATOR, parts)
  }

  /** Python's `s.split(", ")`: the pieces between non-overlapping separators, left to right. */
  function Split(s: string): (r: seq<string>)
    ensures |r| >= 1
  {
    if s == [] then [[]]
    else if |s| >= 2 && s[0] == ',' && s[1] == ' ' then [[]] + Split(s[2..])
    else var rest := Split(s[1..]); [[s[0]] + rest[0]] + rest[1..]
  }

  /** Reading a saved `labels` field back: the empty text holds no label. */
  function ParseLabels(s: string): seq<string> {
    if s == [] then [] else Split(s)
  }

  lemma {:induction false} SplitWithoutComma(p: string)
    requires ',' !in p
    ensures Split(p) == [p]
  {
    if p != [] {
      SplitWithoutComma(p[1..]);
      assert p == [p[0]] + p[1..];
    }
  }

  lemma {:induction false} SplitAfterPart(p: string, q: string)
    requires ',' !in p
    ensures Split(p + SEPARATOR + q) == [p] + Split(q)
  {
    if p == [] {
      assert p + SEPARATOR + q == SEPARATOR + q;
      assert (SEPARATOR + q)[2..] == q;
    } else {
      assert (p + SEPARATOR + q)[1..] == p[1..] + SEPARATOR + q;
      SplitAfterPart(p[1..], q);
      assert p == [p[0]] + p[1..];
    }
  }

  /** Splitting undoes joining when no part holds a comma. */
  lemma {:induction false} SplitJoin(parts: seq<string>)
    requires |parts| >= 1
    requires forall i :: 0 <= i < |parts| ==> ',' !in parts[i]
    ensures Split(JoinWith(SEPARATOR, parts)) == parts
  {
    if |parts| == 1 {
      SplitWithoutComma(parts[0]);
    } else {
      SplitJoin(parts[1..]);
      SplitAfterPart(parts[0], JoinWith(SEPARATOR, parts[1..]));
      assert parts == [parts[0]] + parts[1..];
    }
  }

  /** No label is empty or holds a comma. */
  lemma VocabularyWords()
    ensures forall l :: l in VOCABULARY ==> l != [] && ',' !in l
  {
  }

  /** The saved `labels` text names exactly the checked labels, in vocabulary order. */
  lemma LabelsRoundTrip(vars: LabelVars)
    ensures ParseLabels(LabelsText(vars)) == Checked(VOCABULARY, vars)
  {
    var parts := Checked(VOCABULARY, vars);
    VocabularyWords();
    if parts != [] {
      assert parts[0] in parts;
      forall i | 0 <= i < |parts| ensures ',' !in parts[i] {
        assert parts[i] in parts;
      }
      SplitJoin(parts);
    }
  }
}
