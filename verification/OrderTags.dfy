/**
 Order tags (research/service/strategies.py, `order_tag` and `strategy_of`): every order carries the name of
 the strategy that owns it, and profit is attributed by reading the name back.
 */
module OrderTags {
  import opened Reals
  import LiveControls
  import LiveEngine
  import LiveRisk

  const ID_PREFIX: string := "qd"

  function Digits(n: nat): (s: string)
    ensures |s| > 0 && AllDigits(s)
  {
    var last := [('0' as int + n % 10) as char];
    if n < 10 then last else Digits(n / 10) + last
  }

  predicate AllDigits(s: string) {
    forall i :: 0 <= i < |s| ==> '0' <= s[i] <= '9'
  }

  /** An integer in decimal, with its sign. */
  function Decimal(n: int): string {
    if n < 0 then "-" + Digits(-n) else Digits(n)
  }

  function OrderTag(sid: string, n: int): string {
    ID_PREFIX + "-" + sid + "-" + Decimal(n)
  }

  /** Where the last '-' is, or -1. */
  function LastDash(s: string): (k: int)
    ensures -1 <= k < |s| && (k >= 0 ==> s[k] == '-')
    ensures forall i :: k < i < |s| ==> s[i] != '-'
  {
    if |s| == 0 then -1 else if s[|s| - 1] == '-' then |s| - 1 else LastDash(s[..|s| - 1])
  }

  /** The strategy whose tag this is, if any. */
  function StrategyOf(registry: set<string>, tag: Option<string>): Option<string> {
    var prefix := ID_PREFIX + "-";
    if tag.None? || !(prefix <= tag.value) then None
    else
      var rest := tag.value[|prefix|..];
      var k := LastDash(rest);
      if k <= 0 then None
      else
        var sid, tail := rest[..k], rest[k + 1..];
        if |tail| > 0 && AllDigits(tail) && sid in registry then Some(sid) else None
  }

  lemma LastDashIs(s: string, k: nat)
    requires k < |s| && s[k] == '-' && forall i :: k < i < |s| ==> s[i] != '-'
    ensures LastDash(s) == k
  {}

  /** After the prefix, a tag is the strategy's name, a last dash and a run of digits. */
  lemma TagParts(owner: string, n: nat)
    ensures var rest := OrderTag(owner, n)[3..];
      LastDash(rest) == |owner| && rest[..|owner|] == owner && rest[|owner| + 1..] == Digits(n)
  {
    var rest := OrderTag(owner, n)[3..];
    assert rest == owner + "-" + Digits(n);
    LastDashIs(rest, |owner|);
  }

  /**
   Reading a tag back finds its owner exactly when the owner is registered, has a name, and the sequence
   number is not negative.
   */
  lemma TagRoundTrip(registry: set<string>, sid: string, n: int)
    ensures StrategyOf(registry, Some(OrderTag(sid, n))) == Some(sid) <==> sid in registry && sid != "" && n >= 0
    ensures n < 0 && (sid + "-") in registry ==> StrategyOf(registry, Some(OrderTag(sid, n))) == Some(sid + "-")
  {
    var prefix := ID_PREFIX + "-";
    var owner := if n < 0 then sid + "-" else sid;
    var m: nat := if n < 0 then -n else n;
    assert OrderTag(sid, n) == OrderTag(owner, m);
    TagParts(owner, m);
    assert prefix <= OrderTag(owner, m) && |prefix| == 3;
  }

  /** Whatever is attributed to a strategy was tagged with it: the prefix, its name, a dash and digits. */
  lemma AttributedWasTagged(registry: set<string>, tag: string, sid: string)
    requires StrategyOf(registry, Some(tag)) == Some(sid)
    ensures sid in registry && sid != ""
    ensures exists tail :: |tail| > 0 && AllDigits(tail) && tag == ID_PREFIX + "-" + sid + "-" + tail
  {
    var prefix := ID_PREFIX + "-";
    var rest := tag[|prefix|..];
    var k := LastDash(rest);
    var tail := rest[k + 1..];
    assert tag == prefix + rest;
    assert rest == sid + "-" + tail;
    assert tag == ID_PREFIX + "-" + sid + "-" + tail;
  }

  /** Registering more strategies never takes an order away from its owner. */
  lemma AttributionSurvivesRegistration(registry: set<string>, more: set<string>, tag: string, sid: string)
    requires StrategyOf(registry, Some(tag)) == Some(sid)
    ensures StrategyOf(registry + more, Some(tag)) == Some(sid)
  {}

  lemma {:induction false} DigitsAreInjective(m: nat, n: nat)
    requires Digits(m) == Digits(n)
    ensures m == n
  {
    var s, t := Digits(m), Digits(n);
    assert s[|s| - 1] == t[|t| - 1];
    assert m % 10 == n % 10;
    if m >= 10 && n >= 10 {
      assert s[..|s| - 1] == Digits(m / 10) && t[..|t| - 1] == Digits(n / 10);
      DigitsAreInjective(m / 10, n / 10);
    }
  }

  /** A tag names one strategy and one sequence number: no name that itself ends in digits confuses two tags. */
  lemma TagsAreInjective(sid: string, m: nat, sid': string, n: nat)
    requires OrderTag(sid, m) == OrderTag(sid', n)
    ensures sid == sid' && m == n
  {
    TagParts(sid, m);
    TagParts(sid', n);
    DigitsAreInjective(m, n);
  }

  /**
   Over every run of the engine, no two orders carry the same tag, and every order of a registered strategy is
   attributed to it.
   */
  lemma RunTagsAreDistinct(acts: seq<LiveEngine.Action>, registry: seq<string>, names: set<string>)
    ensures var sent := LiveEngine.Run(LiveEngine.STOPPED, acts, registry).sent;
      && (forall i, j :: 0 <= i < j < |sent| ==> TagOf(sent[i]) != TagOf(sent[j]))
      && (forall i :: 0 <= i < |sent| && sent[i].id in names && sent[i].id != "" ==>
            StrategyOf(names, Some(TagOf(sent[i]))) == Some(sent[i].id))
  {
    hide OrderTag, StrategyOf, LiveEngine.Run;
    var s := LiveEngine.Run(LiveEngine.STOPPED, acts, registry);
    LiveRisk.NumbersAreUnique(acts, registry);
    forall i, j | 0 <= i < j < |s.sent| ensures TagOf(s.sent[i]) != TagOf(s.sent[j]) {
      if TagOf(s.sent[i]) == TagOf(s.sent[j]) {
        TagsAreInjective(s.sent[i].id, s.sent[i].seqNo, s.sent[j].id, s.sent[j].seqNo);
      }
    }
    forall i | 0 <= i < |s.sent| && s.sent[i].id in names && s.sent[i].id != ""
      ensures StrategyOf(names, Some(TagOf(s.sent[i]))) == Some(s.sent[i].id)
    {
      TagRoundTrip(names, s.sent[i].id, s.sent[i].seqNo);
    }
  }

  function TagOf(o: LiveEngine.Order): string {
    OrderTag(o.id, o.seqNo)
  }
}
