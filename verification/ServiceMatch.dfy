/**
 When a service filter matches a service description. The regular expression
 engine and the conversion of text to a number are parameters.
 */
module ServiceMatch {
  import opened ServiceWire

  // What applying a pattern to a text yields: the selected substring on a match.
  datatype RegexOutcome = BadPattern | NoMatch | Match(substring: string)

  datatype Engine = Engine(regex: (string, string) -> RegexOutcome, number: string -> real)

  // ---------- predicates ----------

  const OP_EQUALS := 0x0001
  const OP_GREATER := 0x0002
  const OP_LESS := 0x0003
  const OP_STARTS_WITH := 0x0004
  const OP_ENDS_WITH := 0x0005
  const OP_CONTAINS := 0x0006
  const MOD_NOT := 0x1000

  // `pred & MASK_OP`
  function Operator(pred: int): int {
    pred % 0x1000
  }

  // `(pred & MASK_MOD & MOD_NOT) > 0`
  predicate Negated(pred: int) {
    pred / 0x1000 % 2 == 1
  }

  predicate KnownOperator(op: int) {
    OP_EQUALS <= op <= OP_CONTAINS
  }

  // ---------- std::string operations ----------

  const NPOS := 0xffff_ffff_ffff_ffff

  // `s.compare(t) < 0`
  predicate Before(s: string, t: string) {
    t != "" && (s == "" || s[0] < t[0] || (s[0] == t[0] && Before(s[1..], t[1..])))
  }

  predicate OccursAt(s: string, t: string, i: int) {
    0 <= i && i + |t| <= |s| && s[i..i + |t|] == t
  }

  // `s.find(t)` on the text from position `i` on
  function FindFrom(s: string, t: string, i: nat): int
    decreases |s| - i
  {
    if i + |t| > |s| then NPOS
    else if OccursAt(s, t, i) then i
    else FindFrom(s, t, i + 1)
  }

  function Find(s: string, t: string): int {
    FindFrom(s, t, 0)
  }

  // `s.length() - t.length()` in an unsigned 64-bit type
  function LengthDifference(s: string, t: string): int {
    (|s| - |t|) % (NPOS + 1)
  }

  // The texts a program can hold.
  ghost predicate Holdable(s: string) {
    |s| < NPOS / 2
  }

  // ---------- one rule ----------

  predicate IsNumeric(s: string) {
    forall c :: c in s ==> '0' <= c <= '9' || c == '.' || c == 'e'
  }

  // The relation an operator tests between the selected substring and the rule's value.
  predicate Related(e: Engine, op: int, sub: string, target: string) {
    var numeric := IsNumeric(target) && IsNumeric(sub);
    if op == OP_EQUALS then (if numeric then e.number(sub) == e.number(target) else sub == target)
    else if op == OP_LESS then (if numeric then e.number(sub) < e.number(target) else Before(sub, target))
    else if op == OP_GREATER then (if numeric then e.number(sub) > e.number(target) else Before(target, sub))
    else if op == OP_STARTS_WITH then Find(sub, target) == 0
    else if op == OP_ENDS_WITH then Find(sub, target) == LengthDifference(sub, target)
    else Find(sub, target) != NPOS
  }

  predicate RulePasses(e: Engine, pattern: string, target: string, pred: int, actual: string) {
    match e.regex(pattern, actual)
    case BadPattern => false
    case NoMatch => false
    case Match(sub) =>
      KnownOperator(Operator(pred)) ==> Related(e, Operator(pred), sub, target) != Negated(pred)
  }

  function PatternOf(f: Filter, k: string): string {
    if k in f.pattern then f.pattern[k] else ""
  }

  function PredOf(f: Filter, k: string): int {
    if k in f.pred then f.pred[k] else 0
  }

  predicate KeyPasses(e: Engine, f: Filter, d: Description, k: string) {
    k in f.value ==> RulePasses(e, PatternOf(f, k), f.value[k], PredOf(f, k), d.Lookup(k))
  }

  /** Same service name and every rule passes. */
  predicate Matches(e: Engine, f: Filter, d: Description) {
    f.name == d.name && forall k :: k in f.value ==> KeyPasses(e, f, d, k)
  }

  function WithRule(f: Filter, k: string, pattern: string, target: string, pred: int): Filter {
    f.(value := f.value[k := target], pattern := f.pattern[k := pattern], pred := f.pred[k := pred])
  }

  /**
   Without rules only the names count, and every rule narrows the filter: it matches what it
   matched before and whose property passes the rule, where a missing property is empty.
   */
  lemma EveryRuleNarrows(e: Engine, f: Filter, d: Description, k: string, pattern: string, target: string, pred: int)
    requires k !in f.value
    ensures f.value == map[] ==> (Matches(e, f, d) <==> f.name == d.name)
    ensures Matches(e, WithRule(f, k, pattern, target, pred), d) <==>
              Matches(e, f, d) && RulePasses(e, pattern, target, pred, if k in d.props then d.props[k] else "")
  {
    var g := WithRule(f, k, pattern, target, pred);
    assert forall j :: j in f.value ==> (KeyPasses(e, g, d, j) <==> KeyPasses(e, f, d, j));
    assert KeyPasses(e, g, d, k) <==> RulePasses(e, pattern, target, pred, d.Lookup(k));
  }

  // ---------- what the operators mean ----------

  lemma {:induction false} FindFromIsFirst(s: string, t: string, i: nat)
    requires Holdable(s)
    ensures var r := FindFrom(s, t, i);
            && (r == NPOS ==> forall j :: i <= j ==> !OccursAt(s, t, j))
            && (r != NPOS ==> i <= r && OccursAt(s, t, r) && forall j :: i <= j < r ==> !OccursAt(s, t, j))
    decreases |s| - i
  {
    if i + |t| <= |s| && !OccursAt(s, t, i) {
      FindFromIsFirst(s, t, i + 1);
    }
  }

  /** `find` answers the first occurrence, so the starts-with and contains tests mean what they say. */
  lemma FindMeans(s: string, t: string)
    requires Holdable(s)
    ensures Find(s, t) == 0 <==> t <= s
    ensures Find(s, t) != NPOS <==> exists i :: OccursAt(s, t, i)
  {
    FindFromIsFirst(s, t, 0);
    assert t <= s <==> OccursAt(s, t, 0);
  }

  ghost predicate IsSuffix(t: string, s: string) {
    |t| <= |s| && s[|s| - |t|..] == t
  }

  /**
   The ends-with test is not the suffix relation. It agrees with it exactly when
   the value is not one character longer than the substring, and is not a suffix
   that also occurs before the end.
   */
  lemma EndsWithAgreesExactlyWhen(e: Engine, s: string, t: string)
    requires Holdable(s) && Holdable(t)
    ensures (Related(e, OP_ENDS_WITH, s, t) <==> IsSuffix(t, s))
            <==> |t| != |s| + 1 && !(IsSuffix(t, s) && exists i :: i < |s| - |t| && OccursAt(s, t, i))
  {
    FindFromIsFirst(s, t, 0);
    if |t| <= |s| {
      assert LengthDifference(s, t) == |s| - |t|;
      assert IsSuffix(t, s) <==> OccursAt(s, t, |s| - |t|);
    } else {
      assert LengthDifference(s, t) == NPOS + 1 - (|t| - |s|);
    }
  }

  /** The two ways the ends-with test goes wrong. */
  lemma EndsWithCounterexamples(e: Engine)
    ensures Related(e, OP_ENDS_WITH, "a", "bc") && !IsSuffix("bc", "a")
    ensures !Related(e, OP_ENDS_WITH, "anan", "an") && IsSuffix("an", "anan")
  {
    assert FindFrom("anan", "an", 0) == 0 by {
      assert "anan"[0..2] == "an";
    }
    assert "anan"[2..] == "an";
    assert LengthDifference("a", "bc") == NPOS;
  }

  // ---------- what a rule means ----------

  // The texts that are compared as numbers.
  ghost predicate LooksNumeric(s: string) {
    forall c :: c in s ==> c in "0123456789.e"
  }

  lemma NumericIsByCharacter(s: string)
    ensures IsNumeric(s) <==> LooksNumeric(s)
  {
    var allowed := "0123456789.e";
    assert |allowed| == 12 && forall i :: 0 <= i < 10 ==> allowed[i] as int == '0' as int + i;
    assert allowed[10] == '.' && allowed[11] == 'e';
    forall c
      ensures c in allowed <==> '0' <= c <= '9' || c == '.' || c == 'e'
    {
      if '0' <= c <= '9' {
        assert allowed[c as int - '0' as int] == c;
      }
    }
  }

  // In the order of a dictionary: a proper prefix comes first, and otherwise the first difference decides.
  ghost predicate Precedes(s: string, t: string) {
    exists k: nat :: k <= |s| && k <= |t| && s[..k] == t[..k] && k < |t| && (k < |s| ==> s[k] < t[k])
  }

  lemma {:induction false} BeforeIsDictionaryOrder(s: string, t: string)
    ensures Before(s, t) <==> Precedes(s, t)
  {
    if s != "" && t != "" {
      BeforeIsDictionaryOrder(s[1..], t[1..]);
      if s[0] == t[0] && Precedes(s[1..], t[1..]) {
        var k: nat :| k <= |s[1..]| && k <= |t[1..]| && s[1..][..k] == t[1..][..k] && k < |t[1..]|
                      && (k < |s[1..]| ==> s[1..][k] < t[1..][k]);
        assert s[..k + 1] == [s[0]] + s[1..][..k] && t[..k + 1] == [t[0]] + t[1..][..k];
      }
      if Precedes(s, t) {
        var k: nat :| k <= |s| && k <= |t| && s[..k] == t[..k] && k < |t| && (k < |s| ==> s[k] < t[k]);
        if k > 0 {
          assert s[..k][0] == s[0] && t[..k][0] == t[0];
          assert s[1..][..k - 1] == s[..k][1..] && t[1..][..k - 1] == t[..k][1..];
        } else {
          assert s[0] < t[0];
        }
      }
    } else if t != "" {
      assert s[..0] == t[..0];
    }
  }

  // A rule with a plain operator is the relation itself.
  lemma PlainRule(e: Engine, pattern: string, t: string, op: int, actual: string)
    requires e.regex(pattern, actual).Match? && OP_EQUALS <= op <= OP_CONTAINS
    ensures RulePasses(e, pattern, t, op, actual) == Related(e, op, e.regex(pattern, actual).substring, t)
  {
    assert op / 0x1000 == 0 && op % 0x1000 == op;
  }

  /**
   A comparing rule, once its pattern has selected `s`: it compares numbers if both texts
   look like numbers, and otherwise the texts themselves in the order of a dictionary.
   */
  lemma ComparingRulesMean(e: Engine, pattern: string, t: string, actual: string)
    requires e.regex(pattern, actual).Match?
    ensures var s := e.regex(pattern, actual).substring;
            if LooksNumeric(s) && LooksNumeric(t) then
              && (RulePasses(e, pattern, t, OP_EQUALS, actual) <==> e.number(s) == e.number(t))
              && (RulePasses(e, pattern, t, OP_LESS, actual) <==> e.number(s) < e.number(t))
              && (RulePasses(e, pattern, t, OP_GREATER, actual) <==> e.number(s) > e.number(t))
            else
              && (RulePasses(e, pattern, t, OP_EQUALS, actual) <==> s == t)
              && (RulePasses(e, pattern, t, OP_LESS, actual) <==> Precedes(s, t))
              && (RulePasses(e, pattern, t, OP_GREATER, actual) <==> Precedes(t, s))
  {
    PlainRule(e, pattern, t, OP_EQUALS, actual);
    PlainRule(e, pattern, t, OP_LESS, actual);
    PlainRule(e, pattern, t, OP_GREATER, actual);
    Comparisons(e, e.regex(pattern, actual).substring, t);
  }

  lemma Comparisons(e: Engine, s: string, t: string)
    ensures var numeric := LooksNumeric(s) && LooksNumeric(t);
            && (Related(e, OP_EQUALS, s, t) <==> if numeric then e.number(s) == e.number(t) else s == t)
            && (Related(e, OP_LESS, s, t) <==> if numeric then e.number(s) < e.number(t) else Precedes(s, t))
            && (Related(e, OP_GREATER, s, t) <==> if numeric then e.number(s) > e.number(t) else Precedes(t, s))
  {
    NumericIsByCharacter(s);
    NumericIsByCharacter(t);
    BeforeIsDictionaryOrder(s, t);
    BeforeIsDictionaryOrder(t, s);
  }

  /**
   Starts-with holds of a prefix and contains of any part. Ends-with holds of a suffix
   that occurs nowhere before the end, and of any text that is one character too long.
   */
  lemma SearchingRulesMean(e: Engine, pattern: string, t: string, actual: string)
    requires e.regex(pattern, actual).Match? && Holdable(e.regex(pattern, actual).substring) && Holdable(t)
    ensures var s := e.regex(pattern, actual).substring;
            && (RulePasses(e, pattern, t, OP_STARTS_WITH, actual) <==> t <= s)
            && (RulePasses(e, pattern, t, OP_CONTAINS, actual) <==> exists before, after :: s == before + t + after)
            && (RulePasses(e, pattern, t, OP_ENDS_WITH, actual) <==> |t| == |s| + 1 || OnlyAtTheEnd(t, s))
  {
    PlainRule(e, pattern, t, OP_STARTS_WITH, actual);
    PlainRule(e, pattern, t, OP_CONTAINS, actual);
    PlainRule(e, pattern, t, OP_ENDS_WITH, actual);
    var s := e.regex(pattern, actual).substring;
    FindMeans(s, t);
    OccurrenceIsPart(s, t);
    EndsWithMeans(s, t);
  }

  lemma OccurrenceIsPart(s: string, t: string)
    ensures (exists i :: OccursAt(s, t, i)) <==> exists before, after :: s == before + t + after
  {
    if i :| OccursAt(s, t, i) {
      assert s == s[..i] + t + s[i + |t|..];
    }
    if before, after :| s == before + t + after {
      assert OccursAt(s, t, |before|);
    }
  }

  // `s` ends in `t`, and `t` occurs nowhere else in it.
  ghost predicate OnlyAtTheEnd(t: string, s: string) {
    (exists before :: s == before + t) && forall before, after :: s == before + t + after ==> after == ""
  }

  // The first occurrence is at the end exactly when there is no other.
  lemma FirstAtTheEnd(s: string, t: string, first: int)
    requires |t| <= |s| && first <= |s| - |t| && OccursAt(s, t, first) && forall j :: 0 <= j < first ==> !OccursAt(s, t, j)
    ensures first == |s| - |t| <==> OnlyAtTheEnd(t, s)
  {
    assert s == s[..first] + t + s[first + |t|..];
    if first == |s| - |t| {
      assert s == s[..first] + t;
      forall before, after | s == before + t + after
        ensures after == ""
      {
        assert s[|before|..|before| + |t|] == t;
        assert OccursAt(s, t, |before|);
      }
    }
  }

  lemma EndsWithMeans(s: string, t: string)
    requires Holdable(s) && Holdable(t)
    ensures Find(s, t) == LengthDifference(s, t) <==> |t| == |s| + 1 || OnlyAtTheEnd(t, s)
  {
    FindFromIsFirst(s, t, 0);
    if |t| > |s| {
      assert LengthDifference(s, t) == NPOS + 1 - (|t| - |s|);
    } else {
      assert LengthDifference(s, t) == |s| - |t|;
      if Find(s, t) != NPOS {
        FirstAtTheEnd(s, t, Find(s, t));
      } else {
        OccurrenceIsPart(s, t);
        assert forall before :: before + t == before + t + "";
      }
    }
  }

  /** The negation flag turns every operator round; an operator that is none passes; a pattern that fails fails the rule. */
  lemma OtherRulesMean(e: Engine, pattern: string, t: string, actual: string, op: int)
    requires 0 <= op < 0x1000
    ensures !e.regex(pattern, actual).Match? ==> !RulePasses(e, pattern, t, op, actual) && !RulePasses(e, pattern, t, op + MOD_NOT, actual)
    ensures e.regex(pattern, actual).Match? ==>
              if op == 0 || op > OP_CONTAINS then
                RulePasses(e, pattern, t, op, actual) && RulePasses(e, pattern, t, op + MOD_NOT, actual)
              else
                RulePasses(e, pattern, t, op + MOD_NOT, actual) <==> !RulePasses(e, pattern, t, op, actual)
  {
    assert (op + MOD_NOT) / 0x1000 == 1 && (op + MOD_NOT) % 0x1000 == op && op / 0x1000 == 0 && op % 0x1000 == op;
  }

  /** Once the pattern selects something, the negation flag exactly complements a known operator. */
  lemma NegationComplements(e: Engine, pattern: string, target: string, pred: int, actual: string)
    requires KnownOperator(Operator(pred)) && !Negated(pred)
    requires e.regex(pattern, actual).Match?
    ensures RulePasses(e, pattern, target, pred + MOD_NOT, actual) <==> !RulePasses(e, pattern, target, pred, actual)
  {
    assert pred == 0x1000 * (pred / 0x1000) + pred % 0x1000;
    assert (pred + MOD_NOT) / 0x1000 == pred / 0x1000 + 1;
    assert Operator(pred + MOD_NOT) == Operator(pred);
    assert Negated(pred + MOD_NOT);
  }

  // ---------- matching leaves no trace ----------

  // What a call of `matches` may do to the description it reads.
  ghost predicate MayLeave(f: Filter, d: Description, d': Description) {
    && d'.name == d.name && d'.channel == d.channel
    && (forall k :: k in d.props ==> k in d'.props && d'.props[k] == d.props[k])
    && (forall k :: k in d'.props && k !in d.props ==> k in f.value && d'.props[k] == "")
  }

  ghost predicate LookAlike(d: Description, d': Description) {
    d'.name == d.name && d'.channel == d.channel && forall k :: d'.Lookup(k) == d.Lookup(k)
  }

  lemma LookAlikesMatchAlike(e: Engine, f: Filter, d: Description, d': Description)
    requires LookAlike(d, d')
    ensures Matches(e, f, d') == Matches(e, f, d)
  {
    assert forall k :: KeyPasses(e, f, d', k) == KeyPasses(e, f, d, k);
  }

  /** Any number of `matches` calls leaves all later lookups and all later match results unchanged. */
  lemma {:induction false} MatchingIsPure(e: Engine, fs: seq<Filter>, ds: seq<Description>)
    requires |ds| == |fs| + 1
    requires forall i :: 0 <= i < |fs| ==> MayLeave(fs[i], ds[i], ds[i + 1])
    ensures LookAlike(ds[0], ds[|fs|])
    ensures forall g :: Matches(e, g, ds[|fs|]) == Matches(e, g, ds[0])
  {
    if fs != [] {
      var n := |fs| - 1;
      MatchingIsPure(e, fs[..n], ds[..n + 1]);
      assert MayLeave(fs[n], ds[n], ds[n + 1]);
      assert LookAlike(ds[n], ds[n + 1]);
    }
    forall g
      ensures Matches(e, g, ds[|fs|]) == Matches(e, g, ds[0])
    {
      LookAlikesMatchAlike(e, g, ds[0], ds[|fs|]);
    }
  }

  // ---------- matching after the wire ----------

  ghost predicate RulesAvoidHeader(f: Filter) {
    "name" !in f.value && "channel" !in f.value && "" !in f.value
  }

  /** A description that matched at its owner still matches where it arrives, if no rule reads a header key. */
  lemma ArrivalMatchesAlike(e: Engine, f: Filter, d: Description)
    requires RulesAvoidHeader(f)
    ensures Matches(e, f, OnArrival(d)) == Matches(e, f, d)
  {
    forall k | k in f.value
      ensures KeyPasses(e, f, OnArrival(d), k) == KeyPasses(e, f, d, k)
    {
      assert OnArrival(d).Lookup(k) == d.Lookup(k);
    }
  }

  // The keys that a receiver reads something else for.
  predicate IsHeaderKey(k: string) {
    k == "name" || k == "channel" || k == ""
  }

  // An engine that selects the whole text, a filter that asks for the value "x" of `k`, and a description with it.
  const WHOLE := Engine((p, s) => Match(s), s => 0.0)

  function AsksX(k: string): Filter {
    Filter("svc", "u", map[k := "x"], map[k := ".*"], map[k := OP_EQUALS])
  }

  function HasX(k: string): Description {
    Description("svc", "c", map[k := "x"])
  }

  /** The restriction is needed: a rule on any of the header keys can hold at the owner and fail where it arrives. */
  lemma ArrivalCounterexample(k: string)
    requires IsHeaderKey(k)
    ensures AsksX(k).Sendable() && Matches(WHOLE, AsksX(k), HasX(k)) && !Matches(WHOLE, AsksX(k), OnArrival(HasX(k)))
  {
    var f, d := AsksX(k), HasX(k);
    assert KeyPasses(WHOLE, f, d, k);
    assert "name"[0] != "channel"[0];
    assert OnArrival(d).Lookup(k) == if k == "name" then "svc" else if k == "channel" then "c" else "";
    assert !IsNumeric("x") by {
      assert 'x' in "x";
    }
    assert OnArrival(d).Lookup(k) != "x" by {
      assert "svc"[0] != "x"[0] && "c"[0] != "x"[0];
    }
    assert !KeyPasses(WHOLE, f, OnArrival(d), k);
  }

  // Every filter whose only rule is on `k` matches a description where it arrives as it does at its owner.
  ghost predicate ArrivesAlike(k: string) {
    forall e: Engine, f: Filter, d: Description :: f.value.Keys == {k} ==> Matches(e, f, OnArrival(d)) == Matches(e, f, d)
  }

  /** Rules on a key are unaffected by the wire if and only if it is not a header key. */
  lemma ArrivesAlikeExactlyWhen(k: string)
    ensures ArrivesAlike(k) <==> !IsHeaderKey(k)
  {
    if IsHeaderKey(k) {
      ArrivalCounterexample(k);
      assert AsksX(k).value.Keys == {k};
    } else {
      forall e: Engine, f: Filter, d: Description | f.value.Keys == {k}
        ensures Matches(e, f, OnArrival(d)) == Matches(e, f, d)
      {
        assert forall j :: j in f.value <==> j == k;
        ArrivalMatchesAlike(e, f, d);
      }
    }
  }
}
