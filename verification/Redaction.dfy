/** Log redaction: the passes of `redact` over a growing and shrinking buffer, and what they leave behind. */
module Redaction {

  const RED := "[REDACTED]"

  /** What one pass looks for: a bearer marker, or a quoted key up to the quote that opens its value. */
  datatype Rule = Rule(marker: string, isKey: bool) {
    /** The characters that end a value. */
    predicate Ends(c: char) { c == '"' || (!isKey && (c == '}' || IsWhitespace(c))) }

    /** Markers share no character with the replacement where it matters, and end a value themselves. */
    predicate Valid() {
      && |marker| > 0 && marker[0] !in RED && '[' !in marker && marker[|marker| - 1] !in RED
      && Ends(marker[|marker| - 1])
    }
  }

  /** The characters with the Unicode White_Space property. */
  predicate IsWhitespace(c: char) {
    var n := c as int;
    9 <= n <= 13 || n == 0x20 || n == 0x85 || n == 0xA0 || n == 0x1680 || 0x2000 <= n <= 0x200A
    || n == 0x2028 || n == 0x2029 || n == 0x202F || n == 0x205F || n == 0x3000
  }

  function KeyRule(key: string): Rule { Rule("\"" + key + "\":\"", true) }

  const KEYS: seq<string> :=
    ["ticket", "native_access_token", "control_capability", "password", "refresh_token", "access_token"]

  function KeyRules(keys: seq<string>): (r: seq<Rule>)
    ensures |r| == |keys| && forall i :: 0 <= i < |keys| ==> r[i] == KeyRule(keys[i])
  {
    if keys == [] then [] else [KeyRule(keys[0])] + KeyRules(keys[1..])
  }

  function RulesOf(keys: seq<string>): seq<Rule> { [Rule("Bearer ", false), Rule("bearer ", false)] + KeyRules(keys) }

  const RULES: seq<Rule> := RulesOf(KEYS)

  // ---- One pass ----

  /** `m` stands in `s` at position `i`. */
  predicate At(s: string, m: string, i: int) {
    0 <= i <= |s| - |m| && forall k :: 0 <= k < |m| ==> s[i + k] == m[k]
  }

  /** `str::find` from a cursor on; -1 when there is no match. */
  function Find(s: string, m: string, i: nat): (r: int)
    ensures r >= 0 ==> i <= r && At(s, m, r)
    ensures forall j :: i <= j && (r < 0 || j < r) ==> !At(s, m, j)
    decreases |s| - i
  {
    if i + |m| > |s| then -1 else if At(s, m, i) then i else Find(s, m, i + 1)
  }

  /** Where the value that starts at `i` ends: at its first ending character, or at the end of the text. */
  function ValueEnd(rule: Rule, s: string, i: nat): (r: nat)
    requires i <= |s|
    ensures i <= r <= |s| && (r == |s| || rule.Ends(s[r]))
    ensures forall j :: i <= j < r ==> !rule.Ends(s[j])
    decreases |s| - i
  {
    if i == |s| || rule.Ends(s[i]) then i else ValueEnd(rule, s, i + 1)
  }

  function Replace(s: string, from: nat, to: nat): (r: string)
    requires from <= to <= |s|
    ensures Replaced(s, from, to, r)
  {
    s[..from] + RED + s[to..]
  }

  ghost predicate Replaced(s: string, from: nat, to: nat, r: string) {
    && from <= to <= |s| && |r| == |s| - (to - from) + |RED|
    && (forall k {:trigger r[k]} :: 0 <= k < from ==> r[k] == s[k])
    && At(r, RED, from)
    && (forall k {:trigger r[k]} :: from + |RED| <= k < |r| ==> r[k] == s[k - from - |RED| + to])
  }

  datatype Turn = Stop | Next(text: string, cursor: nat)

  /** One turn of a pass whose cursor has come to `cursor`: it stops, or goes on behind a replaced value. */
  function TurnAt(rule: Rule, s: string, cursor: nat): (r: Turn)
    requires |rule.marker| > 0 && cursor <= |s|
    ensures r.Next? ==> r.cursor <= |r.text| && |r.text| - r.cursor < |s| - cursor
  {
    var p := Find(s, rule.marker, cursor);
    if p < 0 then Stop
    else
      var from := p + |rule.marker|;
      var to := ValueEnd(rule, s, from);
      if rule.isKey && to == |s| then Stop else Next(Replace(s, from, to), from + |RED|)
  }

  /** The rest of a pass. */
  function Pass(rule: Rule, s: string, cursor: nat): string
    requires |rule.marker| > 0 && cursor <= |s|
    decreases |s| - cursor
  {
    var turn := TurnAt(rule, s, cursor);
    if turn.Stop? then s else Pass(rule, turn.text, turn.cursor)
  }

  function RedactWith(rules: seq<Rule>, s: string): string
    requires forall r :: r in rules ==> |r.marker| > 0
  {
    if rules == [] then s else RedactWith(rules[1..], Pass(rules[0], s, 0))
  }

  lemma KeyRuleIsValid(key: string)
    requires '[' !in key
    ensures KeyRule(key).Valid()
  {
    var m := KeyRule(key).marker;
    assert m[|m| - 1] == '"';
  }

  lemma BearerRulesAreValid()
    ensures Rule("Bearer ", false).Valid() && Rule("bearer ", false).Valid()
  {
    assert "Bearer "[6] == ' ' && "bearer "[6] == ' ';
  }

  /** Different keys, none with a quote or a bracket. */
  ghost predicate GoodKeys(keys: seq<string>) {
    && (forall i :: 0 <= i < |keys| ==> '"' !in keys[i] && '[' !in keys[i])
    && (forall i, j :: 0 <= i < j < |keys| ==> keys[i] != keys[j])
  }

  lemma KeysAreClean(i: nat)
    requires i < |KEYS|
    ensures '"' !in KEYS[i] && '[' !in KEYS[i]
  {
  }

  lemma KeyLengths(i: nat)
    requires i < |KEYS|
    ensures |KEYS[i]| == [6, 19, 18, 8, 13, 12][i]
  {
  }

  lemma KeysAreGood()
    ensures GoodKeys(KEYS)
  {
    forall i | 0 <= i < |KEYS| ensures '"' !in KEYS[i] && '[' !in KEYS[i] { KeysAreClean(i); }
    forall i, j | 0 <= i < j < |KEYS| ensures KEYS[i] != KEYS[j] {
      KeyLengths(i);
      KeyLengths(j);
    }
  }

  lemma RulesOfAreValid(keys: seq<string>)
    requires GoodKeys(keys)
    ensures forall r :: r in RulesOf(keys) ==> r.Valid()
  {
    BearerRulesAreValid();
    forall i | 0 <= i < |keys| ensures KeyRule(keys[i]).Valid() {
      KeyRuleIsValid(keys[i]);
    }
  }

  lemma RulesAreValid()
    ensures forall r :: r in RULES ==> r.Valid()
  {
    KeysAreGood();
    RulesOfAreValid(KEYS);
  }

  function Redact(s: string): string {
    RulesAreValid();
    RedactWith(RULES, s)
  }

  /** One pass, in place, under a moving cursor. */
  method RunPass(rule: Rule, input: string) returns (output: string)
    requires |rule.marker| > 0
    ensures output == Pass(rule, input, 0)
  {
    output := input;
    var cursor: nat := 0;
    ghost var goal := Pass(rule, input, 0);
    while true
      invariant cursor <= |output| && Pass(rule, output, cursor) == goal
      decreases |output| - cursor
    {
      var turn := TurnAt(rule, output, cursor);
      if turn.Stop? {
        break;
      }
      output, cursor := turn.text, turn.cursor;
    }
  }

  method RunRedact(input: string) returns (output: string)
    ensures output == Redact(input)
  {
    RulesAreValid();
    output := input;
    for i := 0 to |RULES|
      invariant RedactWith(RULES[i..], output) == RedactWith(RULES, input)
    {
      assert RULES[i..][0] == RULES[i] && RULES[i..][1..] == RULES[i + 1..] && RULES[i] in RULES;
      output := RunPass(RULES[i], output);
    }
  }

  // ---- What a finished pass leaves behind ----

  /** The value that starts at `q` is exactly the replacement (or, for a key, has no closing quote). */
  predicate GoodAt(rule: Rule, s: string, q: int) {
    0 <= q <= |s| &&
    var end := ValueEnd(rule, s, q);
    (rule.isKey && end == |s|) || (end == q + |RED| && At(s, RED, q))
  }

  ghost predicate GoodBefore(rule: Rule, s: string, c: int) {
    forall j :: j < c && At(s, rule.marker, j) ==> GoodAt(rule, s, j + |rule.marker|)
  }

  ghost predicate Good(rule: Rule, s: string) { GoodBefore(rule, s, |s|) }

  /** Two markers never end at the same place. */
  ghost predicate Apart(a: Rule, b: Rule) {
    forall s, i, j :: At(s, a.marker, i) && At(s, b.marker, j) ==> i + |a.marker| != j + |b.marker|
  }

  /** `s'` is `s` with the value behind `rule`'s marker at `p`, which ends at `to`, replaced. */
  ghost predicate Edits(rule: Rule, s: string, p: nat, to: nat, s': string) {
    && At(s, rule.marker, p)
    && to == ValueEnd(rule, s, p + |rule.marker|)
    && Replaced(s, p + |rule.marker|, to, s')
  }

  lemma CharAt(s: string, m: string, i: nat, x: nat)
    requires At(s, m, i)
    ensures i <= x < i + |m| ==> s[x] == m[x - i]
  {
    if i <= x < i + |m| {
      assert s[i + (x - i)] == m[x - i];
    }
  }

  /** No marker overlaps a replacement. */
  lemma NeverAcross(rule: Rule, s: string, from: nat, i: nat)
    requires rule.Valid() && At(s, RED, from) && At(s, rule.marker, i)
    ensures i + |rule.marker| <= from || i >= from + |RED|
  {
    CharAt(s, rule.marker, i, i);
    CharAt(s, rule.marker, i, from);
    CharAt(s, RED, from, i);
    CharAt(s, RED, from, from);
  }

  lemma SameText(m: string, s: string, from: nat, to: nat, s': string, i: nat, o: nat)
    requires Replaced(s, from, to, s') && At(s', m, i)
    requires (o == i && i + |m| <= from) || (o >= to && i == o - to + from + |RED|)
    ensures At(s, m, o)
  {
    forall k | 0 <= k < |m| ensures s[o + k] == m[k] {
      assert s'[i + k] == m[k];
      if o < to {
        assert s'[o + k] == s[o + k];
      } else {
        assert s'[o + k - to + from + |RED|] == s[o + k];
      }
    }
  }

  /** A marker in the edited text comes from the original, wholly before the edit or wholly after it. */
  lemma MarkersStayWhole(rule: Rule, other: Rule, s: string, p: nat, to: nat, s': string, i: nat)
    returns (o: nat, before: bool)
    requires Edits(rule, s, p, to, s') && other.Valid() && At(s', other.marker, i)
    ensures At(s, other.marker, o)
    ensures before ==> o == i && i + |other.marker| <= p + |rule.marker|
    ensures !before ==> o >= to && i == o - to + p + |rule.marker| + |RED|
  {
    var from := p + |rule.marker|;
    NeverAcross(other, s', from, i);
    before := i < from;
    o := if before then i else i - from - |RED| + to;
    SameText(other.marker, s, from, to, s', i, o);
  }

  /** `ValueEnd` is the only position with its two properties. */
  lemma ValueEndIs(rule: Rule, s: string, i: nat, r: nat)
    requires i <= r <= |s| && (r == |s| || rule.Ends(s[r]))
    requires forall j :: i <= j < r ==> !rule.Ends(s[j])
    ensures ValueEnd(rule, s, i) == r
  {
  }

  /** A good value after the edit's place keeps its text. */
  lemma GoodAfter(rule: Rule, other: Rule, s: string, p: nat, to: nat, s': string, q: nat, q': nat)
    requires Edits(rule, s, p, to, s') && to <= q && GoodAt(other, s, q)
    requires q' == q - to + p + |rule.marker| + |RED|
    ensures GoodAt(other, s', q')
  {
    var end := ValueEnd(other, s, q);
    forall j | q' <= j < end + q' - q ensures !other.Ends(s'[j]) {
      assert s'[j] == s[j + q - q'];
    }
    ValueEndIs(other, s', q', end + q' - q);
    if At(s, RED, q) {
      forall k | 0 <= k < |RED| ensures s'[q' + k] == RED[k] {
        assert s[q + k] == RED[k];
      }
    }
  }

  /** A good value ends before the last character of any marker that ends behind its start. */
  lemma EndsBefore(rule: Rule, other: Rule, s: string, p: nat, q: nat)
    requires rule.Valid() && At(s, rule.marker, p) && q < p + |rule.marker| && GoodAt(other, s, q)
    requires other.isKey ==> rule.isKey
    ensures ValueEnd(other, s, q) < p + |rule.marker|
  {
    var end := ValueEnd(other, s, q);
    var last := p + |rule.marker| - 1;
    CharAt(s, rule.marker, p, last);
    if At(s, RED, q) {
      CharAt(s, RED, q, last);
    }
  }

  /** A good value before the edit's place keeps its text, and its end. */
  lemma GoodBeforeEdit(rule: Rule, other: Rule, s: string, p: nat, to: nat, s': string, q: nat)
    requires Edits(rule, s, p, to, s') && rule.Valid() && q < p + |rule.marker| && GoodAt(other, s, q)
    requires other.isKey ==> rule.isKey
    ensures GoodAt(other, s', q)
  {
    var from := p + |rule.marker|;
    var end := ValueEnd(other, s, q);
    EndsBefore(rule, other, s, p, q);
    ValueEndIs(other, s', q, end);
    if At(s, RED, q) && end == q + |RED| {
      forall k | 0 <= k < |RED| ensures s'[q + k] == RED[k] {
        assert s[q + k] == RED[k];
      }
    }
  }

  // ---- A pass makes its own marker good ----

  lemma GoodAtEdit(rule: Rule, s: string, p: nat, to: nat, s': string)
    requires Edits(rule, s, p, to, s')
    ensures GoodAt(rule, s', p + |rule.marker|)
  {
    var from := p + |rule.marker|;
    forall j | from <= j < from + |RED| ensures !rule.Ends(s'[j]) {
      assert s'[from + (j - from)] == RED[j - from];
    }
    assert to < |s| ==> s'[to - to + from + |RED|] == s[to];
    ValueEndIs(rule, s', from, from + |RED|);
  }

  lemma OwnMarkerIsGood(rule: Rule, s: string, p: nat, to: nat, s': string, j: nat)
    requires Edits(rule, s, p, to, s') && rule.Valid()
    requires j == p || (j < p && GoodAt(rule, s, j + |rule.marker|))
    ensures GoodAt(rule, s', j + |rule.marker|)
  {
    if j == p {
      GoodAtEdit(rule, s, p, to, s');
    } else {
      GoodBeforeEdit(rule, rule, s, p, to, s', j + |rule.marker|);
    }
  }

  /** The key pass stops at a value without a closing quote, so no marker follows it. */
  lemma LastMarker(rule: Rule, s: string, p: nat, j: nat)
    requires rule.Valid() && At(s, rule.marker, p) && ValueEnd(rule, s, p + |rule.marker|) == |s|
    requires At(s, rule.marker, j)
    ensures j <= p
  {
    assert s[j + (|rule.marker| - 1)] == rule.marker[|rule.marker| - 1];
  }

  lemma StoppedGood(rule: Rule, s: string, cursor: nat, p: nat)
    requires rule.Valid() && GoodBefore(rule, s, cursor) && p == Find(s, rule.marker, cursor)
    requires rule.isKey && ValueEnd(rule, s, p + |rule.marker|) == |s|
    ensures Good(rule, s)
  {
    forall j: nat | At(s, rule.marker, j) ensures GoodAt(rule, s, j + |rule.marker|) {
      LastMarker(rule, s, p, j);
    }
  }

  lemma EditedGood(rule: Rule, s: string, cursor: nat, p: nat, to: nat, s': string)
    requires Edits(rule, s, p, to, s') && rule.Valid() && p == Find(s, rule.marker, cursor)
    requires GoodBefore(rule, s, cursor)
    ensures GoodBefore(rule, s', p + |rule.marker| + |RED|)
  {
    forall j: nat | j < p + |rule.marker| + |RED| && At(s', rule.marker, j)
      ensures GoodAt(rule, s', j + |rule.marker|)
    {
      var o, before := MarkersStayWhole(rule, rule, s, p, to, s', j);
      assert o == j && (j < p ==> j < cursor);
      OwnMarkerIsGood(rule, s, p, to, s', j);
    }
  }

  /** What a turn did, when it did not stop. */
  lemma TurnEdits(rule: Rule, s: string, cursor: nat, turn: Turn) returns (p: nat, to: nat)
    requires |rule.marker| > 0 && cursor <= |s| && turn == TurnAt(rule, s, cursor) && turn.Next?
    ensures p == Find(s, rule.marker, cursor) && turn.cursor == p + |rule.marker| + |RED|
    ensures Edits(rule, s, p, to, turn.text) && !(rule.isKey && to == |s|)
  {
    p := Find(s, rule.marker, cursor);
    to := ValueEnd(rule, s, p + |rule.marker|);
  }

  lemma GoodStop(rule: Rule, s: string, cursor: nat)
    requires rule.Valid() && cursor <= |s| && GoodBefore(rule, s, cursor) && TurnAt(rule, s, cursor).Stop?
    ensures Good(rule, s)
  {
    var p := Find(s, rule.marker, cursor);
    if p >= 0 {
      StoppedGood(rule, s, cursor, p);
    }
  }

  lemma GoodNext(rule: Rule, s: string, cursor: nat, turn: Turn)
    requires rule.Valid() && cursor <= |s| && GoodBefore(rule, s, cursor)
    requires turn == TurnAt(rule, s, cursor) && turn.Next?
    ensures GoodBefore(rule, turn.text, turn.cursor)
  {
    var p, to := TurnEdits(rule, s, cursor, turn);
    EditedGood(rule, s, cursor, p, to, turn.text);
  }

  lemma {:induction false} PassIsGood(rule: Rule, s: string, cursor: nat)
    requires rule.Valid() && cursor <= |s| && GoodBefore(rule, s, cursor)
    ensures Good(rule, Pass(rule, s, cursor))
    decreases |s| - cursor
  {
    var turn := TurnAt(rule, s, cursor);
    if turn.Stop? {
      GoodStop(rule, s, cursor);
    } else {
      GoodNext(rule, s, cursor, turn);
      PassIsGood(rule, turn.text, turn.cursor);
    }
  }

  // ---- and keeps every other marker good ----

  lemma KeptMarker(rule: Rule, other: Rule, s: string, p: nat, to: nat, s': string, q: nat, q': nat, before: bool)
    requires Edits(rule, s, p, to, s') && rule.Valid() && (other.isKey ==> rule.isKey) && GoodAt(other, s, q)
    requires before ==> q' == q < p + |rule.marker|
    requires !before ==> q >= to && q' == q - to + p + |rule.marker| + |RED|
    ensures GoodAt(other, s', q')
  {
    if before {
      GoodBeforeEdit(rule, other, s, p, to, s', q');
    } else {
      GoodAfter(rule, other, s, p, to, s', q, q');
    }
  }

  /** Every marker is good, and none ends at `from`. */
  ghost predicate GoodOtherThan(rule: Rule, s: string, from: nat) {
    forall o :: At(s, rule.marker, o) ==> GoodAt(rule, s, o + |rule.marker|) && o + |rule.marker| != from
  }

  lemma OriginalValue(rule: Rule, other: Rule, s: string, p: nat, to: nat, s': string, j: nat)
    returns (q: nat, before: bool)
    requires Edits(rule, s, p, to, s') && other.Valid() && At(s', other.marker, j)
    requires GoodOtherThan(other, s, p + |rule.marker|)
    ensures GoodAt(other, s, q)
    ensures before ==> j + |other.marker| == q < p + |rule.marker|
    ensures !before ==> q >= to && j + |other.marker| == q - to + p + |rule.marker| + |RED|
  {
    var o;
    o, before := MarkersStayWhole(rule, other, s, p, to, s', j);
    q := o + |other.marker|;
  }

  lemma EditKeepsGoodAt(rule: Rule, other: Rule, s: string, p: nat, to: nat, s': string, j: nat)
    requires Edits(rule, s, p, to, s') && rule.Valid() && other.Valid() && (other.isKey ==> rule.isKey)
    requires GoodOtherThan(other, s, p + |rule.marker|) && At(s', other.marker, j)
    ensures GoodAt(other, s', j + |other.marker|)
  {
    var q, before := OriginalValue(rule, other, s, p, to, s', j);
    KeptMarker(rule, other, s, p, to, s', q, j + |other.marker|, before);
  }

  lemma EditKeepsGood(rule: Rule, other: Rule, s: string, p: nat, to: nat, s': string)
    requires Edits(rule, s, p, to, s') && rule.Valid() && other.Valid() && (other.isKey ==> rule.isKey)
    requires GoodOtherThan(other, s, p + |rule.marker|)
    ensures Good(other, s')
  {
    forall j: nat | At(s', other.marker, j) ensures GoodAt(other, s', j + |other.marker|) {
      EditKeepsGoodAt(rule, other, s, p, to, s', j);
    }
  }

  lemma KeepingNext(rule: Rule, other: Rule, s: string, cursor: nat, turn: Turn)
    requires rule.Valid() && other.Valid() && cursor <= |s| && Good(other, s) && Apart(rule, other)
    requires (other.isKey ==> rule.isKey) && turn == TurnAt(rule, s, cursor) && turn.Next?
    ensures Good(other, turn.text)
  {
    var p, to := TurnEdits(rule, s, cursor, turn);
    EditKeepsGood(rule, other, s, p, to, turn.text);
  }

  lemma {:induction false} PassKeepsGood(rule: Rule, other: Rule, s: string, cursor: nat)
    requires rule.Valid() && other.Valid() && cursor <= |s| && Good(other, s) && Apart(rule, other)
    requires other.isKey ==> rule.isKey
    ensures Good(other, Pass(rule, s, cursor))
    decreases |s| - cursor
  {
    var turn := TurnAt(rule, s, cursor);
    if turn.Next? {
      KeepingNext(rule, other, s, cursor, turn);
      PassKeepsGood(rule, other, turn.text, turn.cursor);
    }
  }

  lemma ReplacedByItself(s: string, from: nat, s': string)
    requires Replaced(s, from, from + |RED|, s') && At(s, RED, from)
    ensures s' == s
  {
    forall k | 0 <= k < |s| ensures s'[k] == s[k] {
      CharAt(s, RED, from, k);
      CharAt(s', RED, from, k);
    }
  }

  lemma GoodIsLeft(rule: Rule, s: string, p: nat, to: nat, s': string)
    requires |rule.marker| > 0 && Good(rule, s) && Edits(rule, s, p, to, s') && !(rule.isKey && to == |s|)
    ensures s' == s
  {
    assert GoodAt(rule, s, p + |rule.marker|);
    ReplacedByItself(s, p + |rule.marker|, s');
  }

  lemma LeavingNext(rule: Rule, s: string, cursor: nat, turn: Turn)
    requires rule.Valid() && cursor <= |s| && Good(rule, s) && turn == TurnAt(rule, s, cursor) && turn.Next?
    ensures turn.text == s
  {
    var p, to := TurnEdits(rule, s, cursor, turn);
    GoodIsLeft(rule, s, p, to, turn.text);
  }

  /** Good text is left alone. */
  lemma {:induction false} PassLeavesGood(rule: Rule, s: string, cursor: nat)
    requires rule.Valid() && cursor <= |s| && Good(rule, s)
    ensures Pass(rule, s, cursor) == s
    decreases |s| - cursor
  {
    var turn := TurnAt(rule, s, cursor);
    if turn.Next? {
      LeavingNext(rule, s, cursor, turn);
      PassLeavesGood(rule, turn.text, turn.cursor);
    }
  }

  // ---- The rules do not interfere ----

  /** Later passes never undo earlier ones. */
  ghost predicate InOrder(rules: seq<Rule>) {
    && (forall r :: r in rules ==> r.Valid())
    && (forall i, j :: 0 <= i < j < |rules| ==> Apart(rules[j], rules[i]) && (rules[i].isKey ==> rules[j].isKey))
  }

  lemma {:induction false} RedactIsGood(rules: seq<Rule>, done: seq<Rule>, s: string)
    requires InOrder(done + rules) && forall r :: r in done ==> Good(r, s)
    ensures forall r :: r in rules ==> |r.marker| > 0
    ensures forall r :: r in done + rules ==> Good(r, RedactWith(rules, s))
    decreases |rules|
  {
    assert forall r :: r in rules ==> r in done + rules;
    if rules == [] {
      assert done + rules == done;
    } else {
      var rule := rules[0];
      assert rule in done + rules;
      var s' := Pass(rule, s, 0);
      PassIsGood(rule, s, 0);
      forall r | r in done ensures Good(r, s') {
        var i :| 0 <= i < |done| && done[i] == r;
        assert (done + rules)[i] == r && (done + rules)[|done|] == rule;
        PassKeepsGood(rule, r, s, 0);
      }
      assert done + rules == (done + [rule]) + rules[1..];
      RedactIsGood(rules[1..], done + [rule], s');
    }
  }

  lemma {:induction false} RedactLeavesGood(rules: seq<Rule>, s: string)
    requires forall r :: r in rules ==> |r.marker| > 0 && r.Valid() && Good(r, s)
    ensures RedactWith(rules, s) == s
  {
    if rules == [] {
      assert RedactWith(rules, s) == s;
    } else {
      PassLeavesGood(rules[0], s, 0);
      RedactLeavesGood(rules[1..], s);
    }
  }

  // ---- The rules of `redact` ----

  /** Two markers that end at the same place: the shorter is a suffix of the longer. */
  lemma TogetherMeansSuffix(s: string, a: string, b: string, i: nat, j: nat, k: nat)
    requires At(s, a, i) && At(s, b, j) && i + |a| == j + |b| && k < |b| <= |a|
    ensures a[|a| - |b| + k] == b[k]
  {
    assert a[|a| - |b| + k] == s[j + k] == b[k];
  }

  lemma BearersApart()
    ensures Apart(Rule("bearer ", false), Rule("Bearer ", false))
  {
    var a, b := "bearer ", "Bearer ";
    forall s, i, j | At(s, a, i) && At(s, b, j) ensures i + |a| != j + |b| {
      if i + |a| == j + |b| {
        TogetherMeansSuffix(s, a, b, i, j, 0);
      }
    }
  }

  lemma BearerAndKeyApart(key: string, bearer: Rule)
    requires |bearer.marker| > 0 && bearer.marker[|bearer.marker| - 1] == ' '
    ensures Apart(KeyRule(key), bearer)
  {
    var a, b := KeyRule(key).marker, bearer.marker;
    forall s, i, j | At(s, a, i) && At(s, b, j) ensures i + |a| != j + |b| {
      assert s[i + |a| - 1] == a[|a| - 1] == '"';
      assert s[j + |b| - 1] == b[|b| - 1];
    }
  }

  /** Different quote-free keys: the shorter marker's first quote would fall inside the longer key. */
  lemma KeysNeverTogether(x: string, y: string, s: string, i: nat, j: nat)
    requires '"' !in x && |x| >= |y| && x != y
    requires At(s, KeyRule(x).marker, i) && At(s, KeyRule(y).marker, j)
    ensures i + |x| != j + |y|
  {
    var a, b := KeyRule(x).marker, KeyRule(y).marker;
    assert a[1..|x| + 1] == x && b[1..|y| + 1] == y;
    assert forall k :: 1 <= k <= |x| ==> a[k] == x[k - 1];
    if i + |x| == j + |y| && |x| > |y| {
      TogetherMeansSuffix(s, a, b, i, j, 0);
    }
  }

  lemma KeysApart(x: string, y: string)
    requires '"' !in x && '"' !in y && x != y
    ensures Apart(KeyRule(x), KeyRule(y))
  {
    var a, b := KeyRule(x).marker, KeyRule(y).marker;
    forall s, i, j | At(s, a, i) && At(s, b, j) ensures i + |a| != j + |b| {
      if |x| >= |y| {
        KeysNeverTogether(x, y, s, i, j);
      } else {
        KeysNeverTogether(y, x, s, j, i);
      }
    }
  }

  lemma OrderOfTwo(keys: seq<string>, i: nat, j: nat)
    requires GoodKeys(keys) && i < j < |RulesOf(keys)|
    ensures var rules := RulesOf(keys); Apart(rules[j], rules[i]) && (rules[i].isKey ==> rules[j].isKey)
  {
    if j == 1 {
      BearersApart();
    } else if i < 2 {
      BearerAndKeyApart(keys[j - 2], RulesOf(keys)[i]);
    } else {
      KeysApart(keys[j - 2], keys[i - 2]);
    }
  }

  lemma RulesOfAreInOrder(keys: seq<string>)
    requires GoodKeys(keys)
    ensures InOrder(RulesOf(keys))
  {
    RulesOfAreValid(keys);
    forall i, j | 0 <= i < j < |RulesOf(keys)|
      ensures Apart(RulesOf(keys)[j], RulesOf(keys)[i]) && (RulesOf(keys)[i].isKey ==> RulesOf(keys)[j].isKey)
    {
      OrderOfTwo(keys, i, j);
    }
  }

  lemma RulesAreInOrder()
    ensures InOrder(RULES)
  {
    KeysAreGood();
    RulesOfAreInOrder(KEYS);
  }

  lemma RedactedIsGood(s: string)
    ensures forall r :: r in RULES ==> Good(r, Redact(s))
  {
    RulesAreInOrder();
    assert [] + RULES == RULES;
    RedactIsGood(RULES, [], s);
  }

  /** The code points with the Unicode White_Space property, one by one. */
  const WHITE_SPACE: set<int> :=
    {9, 10, 11, 12, 13, 32, 133, 160, 5760, 8192, 8193, 8194, 8195, 8196, 8197, 8198, 8199, 8200, 8201, 8202,
     8232, 8233, 8239, 8287, 12288}

  /** No bearer token goes on behind `c`, and no quoted value goes on behind a quote. */
  predicate EndsToken(c: char) { c == '"' || c == '}' || c as int in WHITE_SPACE }

  lemma BearerEnds(marker: string, c: char)
    ensures Rule(marker, false).Ends(c) <==> EndsToken(c)
  {
    assert IsWhitespace(c) <==> c as int in WHITE_SPACE;
  }

  /** After all passes every bearer marker is directly followed by the replacement, and nothing of a token is left. */
  lemma EveryBearerIsRedacted(s: string, marker: string, i: nat)
    requires marker == "Bearer " || marker == "bearer "
    requires At(Redact(s), marker, i)
    ensures At(Redact(s), "[REDACTED]", i + 7)
    ensures i + 17 < |Redact(s)| ==> EndsToken(Redact(s)[i + 17])
  {
    RedactedIsGood(s);
    var rule := Rule(marker, false);
    assert rule == RULES[0] || rule == RULES[1];
    assert Good(rule, Redact(s)) && At(Redact(s), rule.marker, i);
    assert GoodAt(rule, Redact(s), i + |marker|);
    if i + 17 < |Redact(s)| { BearerEnds(marker, Redact(s)[i + 17]); }
  }

  lemma ClosedValue(rule: Rule, s: string, q: nat, end: nat)
    requires rule.isKey && GoodAt(rule, s, q) && q <= end < |s| && s[end] == '"' && '"' !in s[q..end]
    ensures s[q..end] == RED
  {
    forall j | q <= j < end ensures !rule.Ends(s[j]) {
      assert s[j] == s[q..end][j - q];
    }
    ValueEndIs(rule, s, q, end);
    forall k | 0 <= k < |RED| ensures s[q..end][k] == RED[k] {
      assert s[q + k] == RED[k];
    }
  }

  /** What `redact` looks for, in order: the two bearer markers and the six secret keys of a JSON object. */
  lemma MarkersAre()
    ensures RULES ==
      [Rule("Bearer ", false), Rule("bearer ", false), Rule("\"" + "ticket" + "\":\"", true),
       Rule("\"" + "native_access_token" + "\":\"", true), Rule("\"" + "control_capability" + "\":\"", true),
       Rule("\"" + "password" + "\":\"", true), Rule("\"" + "refresh_token" + "\":\"", true),
       Rule("\"" + "access_token" + "\":\"", true)]
  {
    assert |RULES| == 8;
    assert forall i :: 0 <= i < 6 ==> RULES[i + 2] == KeyRule(KEYS[i]);
  }

  lemma ListedKeyIsRedacted(s: string, k: nat, i: nat, end: nat)
    requires k < |KEYS| && At(Redact(s), KeyRule(KEYS[k]).marker, i)
    requires i + |KEYS[k]| + 4 <= end < |Redact(s)| && Redact(s)[end] == '"'
    requires '"' !in Redact(s)[i + |KEYS[k]| + 4..end]
    ensures Redact(s)[i + |KEYS[k]| + 4..end] == RED
  {
    RedactedIsGood(s);
    var rule, q := KeyRule(KEYS[k]), i + |KEYS[k]| + 4;
    assert RULES[k + 2] == rule;
    assert Good(rule, Redact(s)) && At(Redact(s), rule.marker, i);
    assert GoodAt(rule, Redact(s), q);
    ClosedValue(rule, Redact(s), q, end);
  }

  /** After all passes every secret key whose value is closed by a quote has exactly the replacement as its value. */
  lemma EveryKeyIsRedacted(s: string, key: string, i: nat, end: nat)
    requires key in ["ticket", "native_access_token", "control_capability", "password", "refresh_token", "access_token"]
    requires At(Redact(s), "\"" + key + "\":\"", i)
    requires i + |key| + 4 <= end < |Redact(s)| && Redact(s)[end] == '"'
    requires '"' !in Redact(s)[i + |key| + 4..end]
    ensures Redact(s)[i + |key| + 4..end] == "[REDACTED]"
  {
    var k :| 0 <= k < |KEYS| && KEYS[k] == key;
    ListedKeyIsRedacted(s, k, i, end);
  }

  lemma RedactIsIdempotent(s: string)
    ensures Redact(Redact(s)) == Redact(s)
  {
    RulesAreValid();
    RedactedIsGood(s);
    RedactLeavesGood(RULES, Redact(s));
  }

  /** The texts that redaction leaves alone are exactly those in which every marker is already good. */
  lemma RedactFixpoints(s: string)
    ensures Redact(s) == s <==> forall r :: r in RULES ==> Good(r, s)
  {
    RulesAreValid();
    RedactedIsGood(s);
    if forall r :: r in RULES ==> Good(r, s) {
      RedactLeavesGood(RULES, s);
    }
  }

  // ---- A pass replaces values and nothing else ----

  /** A stretch of text up to and with a marker, and the value behind it. */
  datatype Piece = Piece(text: string, value: string)

  function Weave(pieces: seq<Piece>, tail: string): string {
    if pieces == [] then tail else pieces[0].text + pieces[0].value + Weave(pieces[1..], tail)
  }

  function Blank(pieces: seq<Piece>): (r: seq<Piece>)
    ensures |r| == |pieces|
  {
    if pieces == [] then [] else [pieces[0].(value := RED)] + Blank(pieces[1..])
  }

  /** The text ends with the marker and the value holds no character that ends a value. */
  predicate PieceOf(rule: Rule, piece: Piece) {
    && At(piece.text, rule.marker, |piece.text| - |rule.marker|)
    && forall k :: 0 <= k < |piece.value| ==> !rule.Ends(piece.value[k])
  }

  /** The pieces of what lies behind the cursor, and what the rest of the pass makes of them. */
  ghost predicate Splits(rule: Rule, s: string, cursor: nat, pieces: seq<Piece>, tail: string)
    requires |rule.marker| > 0 && cursor <= |s|
  {
    && s[cursor..] == Weave(pieces, tail) && Pass(rule, s, cursor) == s[..cursor] + Weave(Blank(pieces), tail)
    && forall i :: 0 <= i < |pieces| ==> PieceOf(rule, pieces[i])
  }

  lemma PassFromNext(rule: Rule, s: string, cursor: nat, turn: Turn, rest: seq<Piece>, tail: string)
    returns (pieces: seq<Piece>)
    requires |rule.marker| > 0 && cursor <= |s| && turn == TurnAt(rule, s, cursor) && turn.Next?
    requires Splits(rule, turn.text, turn.cursor, rest, tail)
    ensures Splits(rule, s, cursor, pieces, tail)
  {
    var piece := NextPiece(rule, s, cursor, turn, Weave(rest, tail), Weave(Blank(rest), tail));
    ConsWeave(piece, rest, tail);
    pieces := [piece] + rest;
    assert Pass(rule, s, cursor) == Pass(rule, turn.text, turn.cursor);
  }

  lemma {:induction false} PassFrom(rule: Rule, s: string, cursor: nat) returns (pieces: seq<Piece>, tail: string)
    requires |rule.marker| > 0 && cursor <= |s|
    ensures Splits(rule, s, cursor, pieces, tail)
    decreases |s| - cursor
  {
    var turn := TurnAt(rule, s, cursor);
    if turn.Stop? {
      pieces, tail := [], s[cursor..];
    } else {
      var rest;
      rest, tail := PassFrom(rule, turn.text, turn.cursor);
      pieces := PassFromNext(rule, s, cursor, turn, rest, tail);
    }
  }

  lemma Cuts(s: string, a: nat, b: nat, c: nat, s': string)
    requires a <= b && Replaced(s, b, c, s')
    ensures s[a..] == s[a..b] + s[b..c] + s[c..]
    ensures s'[..b + |RED|] == s[..a] + s[a..b] + RED
  {
    forall k | 0 <= k < |RED| ensures s'[b + k] == RED[k] {
    }
  }

  lemma SameTail(s: string, b: nat, c: nat, s': string)
    requires Replaced(s, b, c, s')
    ensures s'[b + |RED|..] == s[c..]
  {
    var d := b + |RED|;
    forall k | 0 <= k < |s| - c ensures s'[d..][k] == s[c..][k] {
      assert s'[(c + k) - c + b + |RED|] == s[c + k];
    }
  }

  lemma Regroup(a: string, b: string, c: string, d: string)
    ensures (a + b + c) + d == a + (b + c + d)
  {
  }

  lemma ConsWeave(piece: Piece, rest: seq<Piece>, tail: string)
    ensures Weave([piece] + rest, tail) == piece.text + piece.value + Weave(rest, tail)
    ensures Weave(Blank([piece] + rest), tail) == piece.text + RED + Weave(Blank(rest), tail)
  {
    assert ([piece] + rest)[1..] == rest;
    assert Blank([piece] + rest)[1..] == Blank(rest);
  }

  /** The piece that one turn cuts out, in front of what the later turns made of the rest (`w` and `w'`). */
  lemma FirstPiece(rule: Rule, s: string, cursor: nat, p: nat, to: nat, s': string, w: string, w': string)
    returns (piece: Piece)
    requires Edits(rule, s, p, to, s') && cursor <= p && s'[p + |rule.marker| + |RED|..] == w
    ensures PieceOf(rule, piece) && s[cursor..] == piece.text + piece.value + w
    ensures s'[..p + |rule.marker| + |RED|] + w' == s[..cursor] + (piece.text + RED + w')
  {
    var from := p + |rule.marker|;
    piece := Piece(s[cursor..from], s[from..to]);
    Cuts(s, cursor, from, to, s');
    SameTail(s, from, to, s');
    Regroup(s[..cursor], piece.text, RED, w');
    assert piece.text[p - cursor..] == s[p..from];
  }

  lemma NextPiece(rule: Rule, s: string, cursor: nat, turn: Turn, w: string, w': string) returns (piece: Piece)
    requires |rule.marker| > 0 && cursor <= |s| && turn == TurnAt(rule, s, cursor) && turn.Next?
    requires turn.text[turn.cursor..] == w
    ensures PieceOf(rule, piece) && s[cursor..] == piece.text + piece.value + w
    ensures turn.text[..turn.cursor] + w' == s[..cursor] + (piece.text + RED + w')
  {
    var p, to := TurnEdits(rule, s, cursor, turn);
    piece := FirstPiece(rule, s, cursor, p, to, turn.text, w, w');
  }

  /** A whole pass keeps every character outside the values behind its marker. */
  lemma PassOnlyReplacesValues(rule: Rule, s: string) returns (pieces: seq<Piece>, tail: string)
    requires |rule.marker| > 0
    ensures s == Weave(pieces, tail) && Pass(rule, s, 0) == Weave(Blank(pieces), tail)
    ensures forall i :: 0 <= i < |pieces| ==> PieceOf(rule, pieces[i])
  {
    pieces, tail := PassFrom(rule, s, 0);
    assert s[0..] == s;
  }

  /** A bearer pass takes away tokens and no character that ends one. */
  lemma BearerPassOnlyTakesTokens(marker: string, s: string) returns (pieces: seq<Piece>, tail: string)
    requires |marker| > 0
    ensures s == Weave(pieces, tail) && Pass(Rule(marker, false), s, 0) == Weave(Blank(pieces), tail)
    ensures forall i :: 0 <= i < |pieces| ==>
      var piece := pieces[i];
      && At(piece.text, marker, |piece.text| - |marker|)
      && forall k :: 0 <= k < |piece.value| ==> !EndsToken(piece.value[k])
  {
    pieces, tail := PassOnlyReplacesValues(Rule(marker, false), s);
    forall c: char ensures Rule(marker, false).Ends(c) <==> EndsToken(c) { BearerEnds(marker, c); }
  }

  /** A key's pass takes away quoted values and no quote. */
  lemma KeyPassOnlyTakesValues(key: string, s: string) returns (pieces: seq<Piece>, tail: string)
    ensures s == Weave(pieces, tail) && Pass(KeyRule(key), s, 0) == Weave(Blank(pieces), tail)
    ensures forall i :: 0 <= i < |pieces| ==>
      var piece := pieces[i];
      At(piece.text, "\"" + key + "\":\"", |piece.text| - |key| - 4) && '"' !in piece.value
  {
    pieces, tail := PassOnlyReplacesValues(KeyRule(key), s);
  }
}
