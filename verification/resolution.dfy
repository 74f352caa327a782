/**
 Which candidate a signal resolves to. Metadata that the provider may leave out is
 optional; market figures are reals. Texts arrive in their normal forms.
*/
module ResolutionPolicy {
  import opened Text
  import opened Wrappers

  datatype Key = Key(chain: string, address: string)

  datatype Provider = Verified | NotVerified

  datatype Tradable = Tradable | Untradable | Unknown

  datatype Anchor = AuthorFullCa | AuthorUrlCa | OtherAnchor

  /** `launchpad` is absent when the field is empty; its normal form may still be empty. */
  datatype Candidate = Candidate(
    key: Key, symbol: string, nameKey: string, launchpad: Option<string>, providerAddress: Option<string>,
    provider: Provider, tradable: Tradable, honeypot: bool, instructionText: bool, anchors: set<Anchor>,
    renowned: Option<real>, marketCap: Option<real>, liquidity: Option<real>)

  datatype TermKind = TermCa | TermCashtag | TermHashtag | TermApprovedName | TermOther

  /** `match` is the symbol or name the term is compared by, in its normal form. */
  datatype Term = Term(kind: TermKind, normalized: string, matchKey: string, viaUrl: bool)

  datatype Rejection =
    | ChainNotAllowed | ProviderAddressMismatch | ProviderNotVerified | RejUntradable | TradabilityUnknown | Honeypot
    | LiquidityUnknown | LiquidityBelowPolicy | InstructionText | LaunchpadMismatch

  datatype Support = AuthorCaMatch | SymbolMatch | ApprovedNameMatch | LaunchpadMatch

  datatype Input = Input(
    terms: seq<Term>, text: string, allowedChains: set<string>, minLiquidity: Option<real>, leadRatio: Option<real>)

  const KNOWN_PLATFORMS := [
    "flap", "fourmeme", "pumpfun", "noxa", "bankr", "virtuals", "clanker", "zora", "uniswap", "pancakeswap",
    "raydium", "meteora", "moonshot"]

  /** The platforms the author's text names, among the known ones and the candidates' own. */
  function ExplicitPlatforms(text: string, candidates: seq<Candidate>): set<string> {
    (set p | p in KNOWN_PLATFORMS && Contains(text, p))
    + (set c | c in candidates && c.launchpad.Some? && Contains(text, c.launchpad.value) :: c.launchpad.value)
  }

  datatype Context = Context(input: Input, platforms: set<string>)

  // ----- evaluating one candidate -----

  predicate Names(t: Term, c: Candidate) {
    t.kind == TermCa && t.normalized == c.key.address
  }

  predicate SupportedBy(c: Candidate, ctx: Context, s: Support) {
    match s
    case AuthorCaMatch => exists t :: t in ctx.input.terms && Names(t, c)
    case SymbolMatch => exists t ::
      t in ctx.input.terms && (t.kind == TermCashtag || t.kind == TermHashtag) && t.matchKey == c.symbol
    case ApprovedNameMatch => exists t :: t in ctx.input.terms && t.kind == TermApprovedName && t.matchKey == c.nameKey
    case LaunchpadMatch => OnNamedPlatform(c, ctx)
  }

  predicate OnNamedPlatform(c: Candidate, ctx: Context) {
    c.launchpad.Some? && c.launchpad.value != "" && c.launchpad.value in ctx.platforms
  }

  predicate Rejects(c: Candidate, ctx: Context, r: Rejection) {
    match r
    case ChainNotAllowed => ctx.input.allowedChains != {} && c.key.chain !in ctx.input.allowedChains
    case ProviderAddressMismatch => c.providerAddress.Some? && c.providerAddress.value != c.key.address
    case ProviderNotVerified => c.provider != Verified
    case RejUntradable => c.tradable == Untradable
    case TradabilityUnknown => c.tradable == Unknown
    case Honeypot => c.honeypot
    case LiquidityUnknown => ctx.input.minLiquidity.Some? && c.liquidity.None?
    case LiquidityBelowPolicy =>
      ctx.input.minLiquidity.Some? && c.liquidity.Some? && c.liquidity.value < ctx.input.minLiquidity.value
    case InstructionText => c.instructionText
    case LaunchpadMismatch => ctx.platforms != {} && !OnNamedPlatform(c, ctx)
  }

  predicate Survives(c: Candidate, ctx: Context) {
    forall r: Rejection :: !Rejects(c, ctx, r)
  }

  /** The anchor a direct address match adds: by the first term that names the address. */
  function DirectAnchor(c: Candidate, terms: seq<Term>): Option<Anchor> {
    if terms == [] then None
    else if Names(terms[0], c) then Some(if terms[0].viaUrl then AuthorUrlCa else AuthorFullCa)
    else DirectAnchor(c, terms[1..])
  }

  function Anchors(c: Candidate, ctx: Context): set<Anchor> {
    var direct := DirectAnchor(c, ctx.input.terms);
    if direct.Some? then c.anchors + {direct.value} else c.anchors
  }

  predicate Direct(c: Candidate, ctx: Context) {
    AuthorFullCa in Anchors(c, ctx) || AuthorUrlCa in Anchors(c, ctx)
  }

  // ----- lists -----

  function Filter(keep: Candidate -> bool, s: seq<Candidate>): seq<Candidate> {
    if s == [] then []
    else Filter(keep, s[..|s| - 1]) + if keep(s[|s| - 1]) then [s[|s| - 1]] else []
  }

  lemma {:induction false} FilterMembers(keep: Candidate -> bool, s: seq<Candidate>)
    ensures forall c :: c in Filter(keep, s) <==> c in s && keep(c)
  {
    if s != [] {
      FilterMembers(keep, s[..|s| - 1]);
      assert s == s[..|s| - 1] + [s[|s| - 1]];
    }
  }

  predicate DistinctKeys(s: seq<Candidate>) {
    forall i, j :: 0 <= i < j < |s| ==> s[i].key != s[j].key
  }

  function InsertDescending(c: Candidate, s: seq<Candidate>, rank: Candidate -> real): seq<Candidate> {
    if s == [] || rank(s[0]) < rank(c) then [c] + s else [s[0]] + InsertDescending(c, s[1..], rank)
  }

  /** Stable, largest first. */
  function SortDescending(s: seq<Candidate>, rank: Candidate -> real): seq<Candidate> {
    if s == [] then [] else InsertDescending(s[|s| - 1], SortDescending(s[..|s| - 1], rank), rank)
  }

  // ----- the market-dominant candidate -----

  const MIN_RENOWNED := 3.0

  function Figure(value: Option<real>): real {
    if value.Some? then value.value else 0.0
  }

  function Cap(): Candidate -> real {
    (c: Candidate) => Figure(c.marketCap)
  }

  function Liquidity(): Candidate -> real {
    (c: Candidate) => Figure(c.liquidity)
  }

  predicate Eligible(c: Candidate) {
    c.renowned.Some? && c.renowned.value >= MIN_RENOWNED && Figure(c.marketCap) > 0.0 && Figure(c.liquidity) > 0.0
  }

  lemma SortKeepsLength(s: seq<Candidate>, rank: Candidate -> real)
    ensures |SortDescending(s, rank)| == |s|
    ensures forall c :: c in SortDescending(s, rank) <==> c in s
  {
    SortPermutes(s, rank);
    assert |multiset(SortDescending(s, rank))| == |multiset(s)|;
    forall c ensures c in SortDescending(s, rank) <==> c in s {
      assert c in multiset(SortDescending(s, rank)) <==> c in multiset(s);
    }
  }

  lemma {:induction false} InsertPermutes(c: Candidate, s: seq<Candidate>, rank: Candidate -> real)
    ensures multiset(InsertDescending(c, s, rank)) == multiset(s) + multiset{c}
  {
    if s != [] && rank(s[0]) >= rank(c) {
      InsertPermutes(c, s[1..], rank);
      assert s == [s[0]] + s[1..];
    }
  }

  lemma {:induction false} SortPermutes(s: seq<Candidate>, rank: Candidate -> real)
    ensures multiset(SortDescending(s, rank)) == multiset(s)
  {
    if s != [] {
      SortPermutes(s[..|s| - 1], rank);
      InsertPermutes(s[|s| - 1], SortDescending(s[..|s| - 1], rank), rank);
      assert s == s[..|s| - 1] + [s[|s| - 1]];
    }
  }

  function MarketDominant(candidates: seq<Candidate>, ratio: Option<real>): Option<Candidate> {
    if ratio.None? || ratio.value <= 1.0 then None
    else if exists c :: c in candidates && c.renowned.None? then None
    else
      var eligible := Filter(Eligible, candidates);
      FilterMembers(Eligible, candidates);
      if |eligible| == 1 then Some(eligible[0])
      else if |eligible| < 2 then None
      else LeaderOf(eligible, ratio.value)
  }

  predicate Outranks(x: real, y: real, ratio: real) {
    x >= ratio * y
  }

  predicate LeadIs(first: real, second: real, ratio: real)
    requires second > 0.0
  {
    first / second >= ratio
  }

  /** The top of both rankings, when its lead over the second is wide enough in each. */
  function LeaderOf(eligible: seq<Candidate>, ratio: real): Option<Candidate>
    requires |eligible| >= 2 && forall c :: c in eligible ==> Eligible(c)
  {
    var byCap := SortDescending(eligible, Cap());
    var byLiquidity := SortDescending(eligible, Liquidity());
    SortKeepsLength(eligible, Cap());
    SortKeepsLength(eligible, Liquidity());
    assert byCap[1] in eligible && byLiquidity[1] in eligible;
    assert Eligible(byCap[1]) && Eligible(byLiquidity[1]);
    if byCap[0].key != byLiquidity[0].key then None
    else if && LeadIs(Cap()(byCap[0]), Cap()(byCap[1]), ratio)
            && LeadIs(Liquidity()(byLiquidity[0]), Liquidity()(byLiquidity[1]), ratio)
    then Some(byCap[0]) else None
  }

  // ----- the decision -----

  datatype ResolutionStatus = NotFound | Rejected | Resolved | Ambiguous

  datatype FailureCode = CodeNotFound | CodeContextMismatch | CodeUntradable | CodeProviderUnknown | CodePolicyBlocked | CodeAmbiguous

  datatype Confidence = ConfUnknown | ConfVerified | ConfHigh | ConfMedium | ConfLow

  datatype Reason = ByUrl | ByAddress | UniqueLaunchpad | UniqueVariant | MarketDominance | MultipleLegalVariants

  datatype Decision = Decision(
    status: ResolutionStatus, failure: Option<FailureCode>, selected: Option<Candidate>, confidence: Confidence,
    reason: Option<Reason>)

  predicate SomeRejected(candidates: seq<Candidate>, ctx: Context, r: Rejection) {
    exists c :: c in candidates && Rejects(c, ctx, r)
  }

  function FailureFrom(candidates: seq<Candidate>, ctx: Context): FailureCode {
    if SomeRejected(candidates, ctx, ProviderAddressMismatch) then CodeContextMismatch
    else if SomeRejected(candidates, ctx, LaunchpadMismatch) then CodeContextMismatch
    else if SomeRejected(candidates, ctx, RejUntradable) || SomeRejected(candidates, ctx, Honeypot)
         || SomeRejected(candidates, ctx, LiquidityBelowPolicy) then CodeUntradable
    else if SomeRejected(candidates, ctx, ProviderNotVerified) || SomeRejected(candidates, ctx, TradabilityUnknown)
         || SomeRejected(candidates, ctx, LiquidityUnknown) then CodeProviderUnknown
    else if SomeRejected(candidates, ctx, ChainNotAllowed) then CodePolicyBlocked
    else CodeNotFound
  }

  function Select(c: Candidate, confidence: Confidence, reason: Reason): Decision {
    Decision(Resolved, None, Some(c), confidence, Some(reason))
  }

  function ContextOf(candidates: seq<Candidate>, input: Input): Context {
    Context(input, ExplicitPlatforms(input.text, candidates))
  }

  function Survivors(candidates: seq<Candidate>, ctx: Context): seq<Candidate> {
    Filter(c => Survives(c, ctx), candidates)
  }

  function Decide(candidates: seq<Candidate>, ctx: Context): Decision {
    var survivors := Survivors(candidates, ctx);
    if survivors == [] then
      Decision(if candidates == [] then NotFound else Rejected,
               Some(if candidates == [] then CodeNotFound else FailureFrom(candidates, ctx)), None, ConfUnknown, None)
    else
      var direct := Filter(c => Direct(c, ctx), survivors);
      var onPlatform := Filter(c => OnNamedPlatform(c, ctx), survivors);
      if |direct| == 1 then
        Select(direct[0], ConfVerified, if AuthorUrlCa in Anchors(direct[0], ctx) then ByUrl else ByAddress)
      else if |onPlatform| == 1 then Select(onPlatform[0], ConfHigh, UniqueLaunchpad)
      else if |survivors| == 1 then Select(survivors[0], ConfMedium, UniqueVariant)
      else
        match MarketDominant(survivors, ctx.input.leadRatio)
        case Some(c) => Select(c, ConfLow, MarketDominance)
        case None => Decision(Ambiguous, Some(CodeAmbiguous), None, ConfUnknown, Some(MultipleLegalVariants))
  }

  function ApplyResolutionPolicy(candidates: seq<Candidate>, input: Input): Decision {
    Decide(candidates, ContextOf(candidates, input))
  }
}

/** The decision does not depend on the order of the candidates, and what a pick means. */
module ResolutionTheorems {
  import opened Wrappers
  import opened ResolutionPolicy
  import opened Text

  // ----- filtering and sorting under permutation -----

  lemma {:induction false} FilterCount(keep: Candidate -> bool, s: seq<Candidate>, c: Candidate)
    ensures multiset(Filter(keep, s))[c] == if keep(c) then multiset(s)[c] else 0
  {
    if s != [] {
      FilterCount(keep, s[..|s| - 1], c);
      assert s == s[..|s| - 1] + [s[|s| - 1]];
    }
  }

  lemma FilterPermutes(keep: Candidate -> bool, a: seq<Candidate>, b: seq<Candidate>)
    requires multiset(a) == multiset(b)
    ensures multiset(Filter(keep, a)) == multiset(Filter(keep, b))
    ensures |Filter(keep, a)| == |Filter(keep, b)|
    ensures |Filter(keep, a)| == 1 ==> Filter(keep, a) == Filter(keep, b)
  {
    forall c ensures multiset(Filter(keep, a))[c] == multiset(Filter(keep, b))[c] {
      FilterCount(keep, a, c);
      FilterCount(keep, b, c);
    }
    SamePermutation(Filter(keep, a), Filter(keep, b));
  }

  lemma SamePermutation(a: seq<Candidate>, b: seq<Candidate>)
    requires multiset(a) == multiset(b)
    ensures |a| == |b| && (forall c :: c in a <==> c in b)
    ensures |a| == 1 ==> a == b
  {
    assert |multiset(a)| == |multiset(b)|;
    forall c ensures c in a <==> c in b { assert c in multiset(a) <==> c in multiset(b); }
    if |a| == 1 { assert a[0] in b; }
  }

  lemma {:induction false} FilterKeepsDistinct(keep: Candidate -> bool, s: seq<Candidate>)
    requires DistinctKeys(s)
    ensures DistinctKeys(Filter(keep, s))
  {
    if s != [] {
      var front, last := s[..|s| - 1], s[|s| - 1];
      FilterKeepsDistinct(keep, front);
      FilterMembers(keep, front);
      forall i | 0 <= i < |Filter(keep, front)| ensures Filter(keep, front)[i].key != last.key {
        assert Filter(keep, front)[i] in front;
      }
    }
  }

  predicate Descending(s: seq<Candidate>, rank: Candidate -> real) {
    forall i, j :: 0 <= i < j < |s| ==> rank(s[i]) >= rank(s[j])
  }

  lemma {:induction false} InsertKeepsDescending(c: Candidate, s: seq<Candidate>, rank: Candidate -> real)
    requires Descending(s, rank)
    ensures Descending(InsertDescending(c, s, rank), rank)
  {
    if s != [] && rank(s[0]) >= rank(c) {
      InsertKeepsDescending(c, s[1..], rank);
      InsertPermutes(c, s[1..], rank);
      var rest := InsertDescending(c, s[1..], rank);
      forall j | 0 <= j < |rest| ensures rank(s[0]) >= rank(rest[j]) {
        assert rest[j] in multiset(s[1..]) + multiset{c};
      }
    }
  }

  lemma {:induction false} SortDescends(s: seq<Candidate>, rank: Candidate -> real)
    ensures Descending(SortDescending(s, rank), rank)
  {
    if s != [] {
      SortDescends(s[..|s| - 1], rank);
      InsertKeepsDescending(s[|s| - 1], SortDescending(s[..|s| - 1], rank), rank);
    }
  }

  lemma DistinctByMultiset(a: seq<Candidate>, b: seq<Candidate>)
    requires DistinctKeys(a) && multiset(a) == multiset(b)
    ensures DistinctKeys(b)
  {
    forall i, j | 0 <= i < j < |b| ensures b[i].key != b[j].key {
      assert b[i] in multiset(a) && b[j] in multiset(a);
      var k :| 0 <= k < |a| && a[k] == b[i];
      var l :| 0 <= l < |a| && a[l] == b[j];
      if k == l { OccursOnce(a, k); OccursTwice(b, i, j); }
    }
  }

  lemma OccursTwice(b: seq<Candidate>, i: nat, j: nat)
    requires i < j < |b| && b[i] == b[j]
    ensures multiset(b)[b[i]] >= 2
  {
    assert b == b[..j] + [b[j]] + b[j + 1..];
    assert b[..j][i] == b[i];
  }

  lemma OccursOnce(a: seq<Candidate>, k: nat)
    requires DistinctKeys(a) && k < |a|
    ensures multiset(a)[a[k]] == 1
  {
    assert a == a[..k] + [a[k]] + a[k + 1..];
    assert a[k] !in a[..k] && a[k] !in a[k + 1..];
  }

  // ----- the dominant candidate -----

  lemma RatioAtLeast(x: real, y: real, ratio: real)
    requires y > 0.0
    ensures LeadIs(x, y, ratio) <==> Outranks(x, y, ratio)
  {
    assert x == (x / y) * y;
    if x / y >= ratio { assert (x / y) * y >= ratio * y; }
    if x / y < ratio { assert (x / y) * y < ratio * y; }
  }

  predicate Leads(d: Candidate, e: Candidate, ratio: real) {
    Outranks(Figure(d.marketCap), Figure(e.marketCap), ratio) && Outranks(Figure(d.liquidity), Figure(e.liquidity), ratio)
  }

  /** Beats every other eligible candidate by the ratio, in market cap and in liquidity. */
  predicate Dominates(candidates: seq<Candidate>, ratio: real, d: Candidate) {
    d in candidates && Eligible(d) && forall e :: e in candidates && Eligible(e) && e.key != d.key ==> Leads(d, e, ratio)
  }

  /** What is no larger cannot lead by a ratio above one. */
  lemma CannotLead(x: real, y: real, ratio: real)
    requires y >= x && y > 0.0 && ratio > 1.0
    ensures !Outranks(x, y, ratio)
  {
    assert ratio * y == y + (ratio - 1.0) * y;
    assert (ratio - 1.0) * y > 0.0;
  }

  lemma TimesOrdered(x: real, y: real, ratio: real)
    requires x >= y && ratio > 0.0
    ensures forall z :: Outranks(z, x, ratio) ==> Outranks(z, y, ratio)
  {
    assert ratio * x >= ratio * y;
  }

  /** Leads every other candidate of the list by the ratio in one figure. */
  predicate LeadsAll(s: seq<Candidate>, rank: Candidate -> real, ratio: real, d: Candidate) {
    d in s && forall e :: e in s && e.key != d.key ==> Outranks(rank(d), rank(e), ratio)
  }

  lemma SortFacts(s: seq<Candidate>, rank: Candidate -> real)
    requires DistinctKeys(s)
    ensures var top := SortDescending(s, rank);
            |top| == |s| && Descending(top, rank) && DistinctKeys(top) && forall c :: c in top <==> c in s
  {
    SortKeepsLength(s, rank);
    SortDescends(s, rank);
    SortPermutes(s, rank);
    DistinctByMultiset(s, SortDescending(s, rank));
  }

  lemma LeaderIsTop(s: seq<Candidate>, top: seq<Candidate>, rank: Candidate -> real, ratio: real, d: Candidate)
    requires Descending(top, rank) && DistinctKeys(top) && |top| >= 2 && (forall c :: c in top <==> c in s)
    requires ratio > 1.0 && (forall c :: c in s ==> rank(c) > 0.0) && LeadsAll(s, rank, ratio, d)
    ensures d == top[0] && Outranks(rank(top[0]), rank(top[1]), ratio)
  {
    assert top[0] in top && top[1] in top && d in top;
    var k :| 0 <= k < |top| && top[k] == d;
    assert k > 0 ==> top[0].key != d.key && Outranks(rank(d), rank(top[0]), ratio);
    CannotLead(rank(d), rank(top[0]), ratio);
    assert top[1].key != top[0].key;
  }

  lemma TopIsLeader(s: seq<Candidate>, top: seq<Candidate>, rank: Candidate -> real, ratio: real)
    requires Descending(top, rank) && DistinctKeys(top) && |top| >= 2 && (forall c :: c in top <==> c in s)
    requires ratio > 1.0 && Outranks(rank(top[0]), rank(top[1]), ratio)
    ensures LeadsAll(s, rank, ratio, top[0])
  {
    assert top[0] in top;
    forall e | e in s && e.key != top[0].key ensures Outranks(rank(top[0]), rank(e), ratio) {
      assert e in top;
      var k :| 0 <= k < |top| && top[k] == e;
      assert rank(top[1]) >= rank(e);
      TimesOrdered(rank(top[1]), rank(e), ratio);
    }
  }

  /** The top of one ranking leads all others by the ratio exactly when it leads the second. */
  lemma TopLeads(s: seq<Candidate>, rank: Candidate -> real, ratio: real, d: Candidate)
    requires DistinctKeys(s) && |s| >= 2 && ratio > 1.0 && forall c :: c in s ==> rank(c) > 0.0
    ensures |SortDescending(s, rank)| == |s|
    ensures var top := SortDescending(s, rank);
            && top[0] in s && top[1] in s
            && (LeadsAll(s, rank, ratio, d) <==> d == top[0] && Outranks(rank(top[0]), rank(top[1]), ratio))
  {
    hide Descending, DistinctKeys, LeadsAll, SortDescending;
    var top := SortDescending(s, rank);
    SortFacts(s, rank);
    assert top[0] in top && top[1] in top;
    TopIff(s, top, rank, ratio, d);
  }

  lemma TopIff(s: seq<Candidate>, top: seq<Candidate>, rank: Candidate -> real, ratio: real, d: Candidate)
    requires Descending(top, rank) && DistinctKeys(top) && |top| >= 2 && (forall c :: c in top <==> c in s)
    requires ratio > 1.0 && (forall c :: c in s ==> rank(c) > 0.0)
    ensures LeadsAll(s, rank, ratio, d) <==> d == top[0] && Outranks(rank(top[0]), rank(top[1]), ratio)
  {
    hide Descending, DistinctKeys, LeadsAll;
    if LeadsAll(s, rank, ratio, d) { LeaderIsTop(s, top, rank, ratio, d); }
    if Outranks(rank(top[0]), rank(top[1]), ratio) { TopIsLeader(s, top, rank, ratio); }
  }

  predicate AllKnown(candidates: seq<Candidate>) {
    forall c :: c in candidates ==> c.renowned.Some?
  }

  /** A pick is exactly the candidate that dominates, when every audience figure is known. */
  lemma DominantExactly(candidates: seq<Candidate>, ratio: Option<real>, d: Candidate)
    requires DistinctKeys(candidates)
    ensures MarketDominant(candidates, ratio) == Some(d)
            <==> ratio.Some? && ratio.value > 1.0 && AllKnown(candidates) && Dominates(candidates, ratio.value, d)
  {
    if ratio.Some? && ratio.value > 1.0 && AllKnown(candidates) {
      var eligible := Filter(Eligible, candidates);
      FilterMembers(Eligible, candidates);
      FilterKeepsDistinct(Eligible, candidates);
      if |eligible| == 0 {
        assert d !in eligible;
      } else if |eligible| == 1 {
        assert eligible == [eligible[0]];
        forall e | e in candidates && Eligible(e) ensures e == eligible[0] { assert e in eligible; }
        assert eligible[0] in eligible;
      } else {
        assert forall c :: c in eligible ==> Cap()(c) > 0.0 && Liquidity()(c) > 0.0;
        LeaderExactly(eligible, ratio.value, d);
        assert d in eligible <==> d in candidates && Eligible(d);
      }
    }
  }

  lemma LeadsBoth(s: seq<Candidate>, ratio: real, d: Candidate)
    ensures LeadsAll(s, Cap(), ratio, d) && LeadsAll(s, Liquidity(), ratio, d)
            <==> d in s && forall e :: e in s && e.key != d.key ==> Leads(d, e, ratio)
  {
  }

  lemma LeaderExactly(eligible: seq<Candidate>, ratio: real, d: Candidate)
    requires |eligible| >= 2 && DistinctKeys(eligible) && ratio > 1.0 && forall c :: c in eligible ==> Eligible(c)
    ensures LeaderOf(eligible, ratio) == Some(d)
            <==> d in eligible && forall e :: e in eligible && e.key != d.key ==> Leads(d, e, ratio)
  {
    var byCap := SortDescending(eligible, Cap());
    var byLiquidity := SortDescending(eligible, Liquidity());
    TopLeads(eligible, Cap(), ratio, d);
    TopLeads(eligible, Liquidity(), ratio, d);
    LeadsBoth(eligible, ratio, d);
    SameKeySame(eligible, byCap[0], byLiquidity[0]);
    assert Eligible(byCap[1]) && Eligible(byLiquidity[1]);
    hide LeadIs, LeadsAll, DistinctKeys, Leads, SortDescending, Outranks;
    RatioAtLeast(Cap()(byCap[0]), Cap()(byCap[1]), ratio);
    RatioAtLeast(Liquidity()(byLiquidity[0]), Liquidity()(byLiquidity[1]), ratio);
    hide LeadsAll, DistinctKeys, Eligible, Leads, SortDescending, LeadIs;
  }

  lemma SameKeySame(s: seq<Candidate>, a: Candidate, b: Candidate)
    requires DistinctKeys(s) && a in s && b in s
    ensures a.key == b.key <==> a == b
  {
  }

  /** With two eligible candidates or more at most one can dominate. */
  lemma DominanceIsUnique(candidates: seq<Candidate>, ratio: real, a: Candidate, b: Candidate)
    requires ratio > 1.0 && Dominates(candidates, ratio, a) && Dominates(candidates, ratio, b)
    ensures a.key == b.key
  {
    var x, y := Figure(a.marketCap), Figure(b.marketCap);
    assert a.key != b.key ==> Leads(a, b, ratio) && Leads(b, a, ratio);
    if x <= y { CannotLead(x, y, ratio); } else { CannotLead(y, x, ratio); }
  }

  // ----- the decision -----

  lemma DominantPermutes(a: seq<Candidate>, b: seq<Candidate>, ratio: Option<real>)
    requires DistinctKeys(a) && multiset(a) == multiset(b)
    ensures MarketDominant(a, ratio) == MarketDominant(b, ratio)
  {
    DistinctByMultiset(a, b);
    SamePermutation(a, b);
    var first, second := MarketDominant(a, ratio), MarketDominant(b, ratio);
    if first.Some? {
      DominantExactly(a, ratio, first.value);
      DominantExactly(b, ratio, first.value);
    }
    if second.Some? {
      DominantExactly(a, ratio, second.value);
      DominantExactly(b, ratio, second.value);
    }
  }

  lemma SurvivorsPermute(a: seq<Candidate>, b: seq<Candidate>, ctx: Context)
    requires DistinctKeys(a) && multiset(a) == multiset(b)
    ensures multiset(Survivors(a, ctx)) == multiset(Survivors(b, ctx)) && DistinctKeys(Survivors(a, ctx))
    ensures Survivors(a, ctx) == [] <==> Survivors(b, ctx) == []
    ensures |Survivors(a, ctx)| == |Survivors(b, ctx)|
    ensures |Survivors(a, ctx)| == 1 ==> Survivors(a, ctx) == Survivors(b, ctx)
  {
    FilterPermutes(c => Survives(c, ctx), a, b);
    FilterKeepsDistinct(c => Survives(c, ctx), a);
  }

  lemma FailurePermutes(a: seq<Candidate>, b: seq<Candidate>, ctx: Context)
    requires forall c :: c in a <==> c in b
    ensures FailureFrom(a, ctx) == FailureFrom(b, ctx)
  {
    forall r ensures SomeRejected(a, ctx, r) == SomeRejected(b, ctx, r) {}
    hide SomeRejected;
  }

  lemma DecidePermutes(a: seq<Candidate>, b: seq<Candidate>, ctx: Context)
    requires DistinctKeys(a) && multiset(a) == multiset(b)
    ensures Decide(a, ctx) == Decide(b, ctx)
  {
    SamePermutation(a, b);
    FailurePermutes(a, b, ctx);
    SurvivorsPermute(a, b, ctx);
    var s, t := Survivors(a, ctx), Survivors(b, ctx);
    FilterPermutes(c => Direct(c, ctx), s, t);
    FilterPermutes(c => OnNamedPlatform(c, ctx), s, t);
    DominantPermutes(s, t, ctx.input.leadRatio);
  }

  /**
   Whatever order candidates with distinct keys come in, the status, the pick, the failure
   code, the confidence and the reason are the same.
  */
  lemma OrderIndependent(a: seq<Candidate>, b: seq<Candidate>, input: Input)
    requires DistinctKeys(a) && multiset(a) == multiset(b)
    ensures ApplyResolutionPolicy(a, input) == ApplyResolutionPolicy(b, input)
  {
    SamePermutation(a, b);
    assert ExplicitPlatforms(input.text, a) == ExplicitPlatforms(input.text, b);
    hide Decide;
    DecidePermutes(a, b, ContextOf(a, input));
  }

  /** Resolved exactly with a pick; the pick is a candidate that nothing rejects. */
  lemma PickIsClean(candidates: seq<Candidate>, input: Input)
    ensures var d := ApplyResolutionPolicy(candidates, input);
            && (d.status == Resolved <==> d.selected.Some?)
            && (d.status == Resolved <==> d.failure.None?)
            && (d.selected.Some? ==> d.selected.value in candidates
                                     && Survives(d.selected.value, ContextOf(candidates, input)))
            && (d.status == NotFound <==> candidates == [])
  {
    var ctx := ContextOf(candidates, input);
    var survivors := Survivors(candidates, ctx);
    FilterMembers(c => Survives(c, ctx), candidates);
    FilterMembers(c => Direct(c, ctx), survivors);
    FilterMembers(c => OnNamedPlatform(c, ctx), survivors);
    var direct := Filter(c => Direct(c, ctx), survivors);
    var onPlatform := Filter(c => OnNamedPlatform(c, ctx), survivors);
    assert |direct| == 1 ==> direct[0] in direct;
    assert |onPlatform| == 1 ==> onPlatform[0] in onPlatform;
    DominantIsOne(survivors, input.leadRatio);
    hide Survives, Direct, OnNamedPlatform, MarketDominant, Filter, ExplicitPlatforms, FailureFrom;
  }

  lemma DominantIsOne(candidates: seq<Candidate>, ratio: Option<real>)
    ensures MarketDominant(candidates, ratio).Some? ==> MarketDominant(candidates, ratio).value in candidates
  {
    var eligible := Filter(Eligible, candidates);
    FilterMembers(Eligible, candidates);
    if |eligible| == 1 { assert eligible[0] in eligible; }
    if |eligible| >= 2 {
      SortKeepsLength(eligible, Cap());
      assert SortDescending(eligible, Cap())[0] in eligible;
    }
  }

  // ----- which candidate is picked -----

  /** A candidate survives exactly when nothing about it is wrong, missing or unknown. */
  lemma SurvivesExactly(c: Candidate, ctx: Context)
    ensures Survives(c, ctx) <==>
            && (ctx.input.allowedChains == {} || c.key.chain in ctx.input.allowedChains)
            && (c.providerAddress.None? || c.providerAddress.value == c.key.address)
            && c.provider == Verified && c.tradable == Tradable && !c.honeypot && !c.instructionText
            && (ctx.input.minLiquidity.None? || (c.liquidity.Some? && c.liquidity.value >= ctx.input.minLiquidity.value))
            && (ctx.platforms == {} || (c.launchpad.Some? && c.launchpad.value != "" && c.launchpad.value in ctx.platforms))
  {
    if Survives(c, ctx) {
      assert !Rejects(c, ctx, ChainNotAllowed) && !Rejects(c, ctx, ProviderAddressMismatch);
      assert !Rejects(c, ctx, ProviderNotVerified) && !Rejects(c, ctx, RejUntradable);
      assert !Rejects(c, ctx, TradabilityUnknown) && !Rejects(c, ctx, Honeypot);
      assert !Rejects(c, ctx, LiquidityUnknown) && !Rejects(c, ctx, LiquidityBelowPolicy);
      assert !Rejects(c, ctx, InstructionText) && !Rejects(c, ctx, LaunchpadMismatch);
    }
  }

  /** Named by address: some term is its address, or it came with such an anchor. The first such term says which. */
  lemma {:induction false} DirectExactly(c: Candidate, terms: seq<Term>)
    ensures DirectAnchor(c, terms).Some? <==>
            exists i :: 0 <= i < |terms| && terms[i].kind == TermCa && terms[i].normalized == c.key.address
    ensures DirectAnchor(c, terms).Some? ==>
              exists i :: 0 <= i < |terms| && terms[i].kind == TermCa && terms[i].normalized == c.key.address
                && DirectAnchor(c, terms).value == (if terms[i].viaUrl then AuthorUrlCa else AuthorFullCa)
                && forall k :: 0 <= k < i ==> !(terms[k].kind == TermCa && terms[k].normalized == c.key.address)
  {
    if terms != [] && !(terms[0].kind == TermCa && terms[0].normalized == c.key.address) {
      DirectExactly(c, terms[1..]);
      if DirectAnchor(c, terms[1..]).Some? {
        var i :| 0 <= i < |terms[1..]| && terms[1..][i].kind == TermCa && terms[1..][i].normalized == c.key.address
          && DirectAnchor(c, terms[1..]).value == (if terms[1..][i].viaUrl then AuthorUrlCa else AuthorFullCa)
          && forall k :: 0 <= k < i ==> !(terms[1..][k].kind == TermCa && terms[1..][k].normalized == c.key.address);
        assert terms[i + 1] == terms[1..][i];
        forall k | 0 <= k < i + 1 ensures !(terms[k].kind == TermCa && terms[k].normalized == c.key.address) {
          if k > 0 { assert terms[k] == terms[1..][k - 1]; }
        }
      }
    }
  }

  /** The term is this candidate's contract address. */
  predicate IsAddressOf(t: Term, c: Candidate) {
    t.kind == TermCa && t.normalized == c.key.address
  }

  /** By address, and by a link, said of the anchors a candidate came with and of the author's terms. */
  lemma NamedByAuthor(c: Candidate, ctx: Context)
    ensures Direct(c, ctx) <==>
              || AuthorFullCa in c.anchors || AuthorUrlCa in c.anchors
              || exists i :: 0 <= i < |ctx.input.terms| && IsAddressOf(ctx.input.terms[i], c)
    ensures AuthorUrlCa in Anchors(c, ctx) <==>
              || AuthorUrlCa in c.anchors
              || exists i :: 0 <= i < |ctx.input.terms| && IsAddressOf(ctx.input.terms[i], c) && ctx.input.terms[i].viaUrl
                   && forall k :: 0 <= k < i ==> !IsAddressOf(ctx.input.terms[k], c)
  {
    var terms := ctx.input.terms;
    DirectExactly(c, terms);
    hide DirectAnchor;
    if DirectAnchor(c, terms).Some? {
      var i :| 0 <= i < |terms| && IsAddressOf(terms[i], c)
        && DirectAnchor(c, terms).value == (if terms[i].viaUrl then AuthorUrlCa else AuthorFullCa)
        && forall k :: 0 <= k < i ==> !IsAddressOf(terms[k], c);
      assert IsAddressOf(terms[i], c);
    }
    if i :| 0 <= i < |terms| && IsAddressOf(terms[i], c) { assert DirectAnchor(c, terms).Some?; }
  }

  /** The platforms named in the text are the known ones and the candidates' own that it contains. */
  lemma PlatformsExactly(text: string, candidates: seq<Candidate>, p: string)
    ensures p in ExplicitPlatforms(text, candidates) <==>
              && Contains(text, p)
              && (|| p in {"flap", "fourmeme", "pumpfun", "noxa", "bankr", "virtuals", "clanker", "zora", "uniswap",
                           "pancakeswap", "raydium", "meteora", "moonshot"}
                  || exists c :: c in candidates && c.launchpad == Some(p))
  {
    hide Contains;
    assert p in KNOWN_PLATFORMS <==> p in {"flap", "fourmeme", "pumpfun", "noxa", "bankr", "virtuals", "clanker", "zora",
      "uniswap", "pancakeswap", "raydium", "meteora", "moonshot"};
  }

  /** The one surviving candidate that the author named by address. */
  ghost predicate OnlyDirect(candidates: seq<Candidate>, ctx: Context, c: Candidate) {
    && c in candidates && Survives(c, ctx) && Direct(c, ctx)
    && forall e :: e in candidates && Survives(e, ctx) && Direct(e, ctx) ==> e == c
  }

  /** The one surviving candidate on a platform that the text names. */
  ghost predicate OnlyOnPlatform(candidates: seq<Candidate>, ctx: Context, c: Candidate) {
    && c in candidates && Survives(c, ctx) && OnNamedPlatform(c, ctx)
    && forall e :: e in candidates && Survives(e, ctx) && OnNamedPlatform(e, ctx) ==> e == c
  }

  ghost predicate OnlySurvivor(candidates: seq<Candidate>, ctx: Context, c: Candidate) {
    c in candidates && Survives(c, ctx) && forall e :: e in candidates && Survives(e, ctx) ==> e == c
  }

  /** Of renown at least three, with a market cap and liquidity above nothing. */
  predicate WellKnown(c: Candidate) {
    && c.renowned.Some? && c.renowned.value >= 3.0
    && c.marketCap.Some? && c.marketCap.value > 0.0 && c.liquidity.Some? && c.liquidity.value > 0.0
  }

  predicate FarAhead(c: Candidate, e: Candidate, ratio: real)
    requires WellKnown(c) && WellKnown(e)
  {
    c.marketCap.value >= ratio * e.marketCap.value && c.liquidity.value >= ratio * e.liquidity.value
  }

  lemma WellKnownIsEligible(c: Candidate, e: Candidate, ratio: real)
    ensures WellKnown(c) <==> Eligible(c)
    ensures WellKnown(c) && WellKnown(e) ==> (FarAhead(c, e, ratio) <==> Leads(c, e, ratio))
  {
  }

  /** The well-known survivor that is far ahead of every other such one, every audience being known. */
  ghost predicate DominantSurvivor(candidates: seq<Candidate>, ctx: Context, c: Candidate) {
    var ratio := ctx.input.leadRatio;
    && ratio.Some? && ratio.value > 1.0
    && (forall e :: e in candidates && Survives(e, ctx) ==> e.renowned.Some?)
    && c in candidates && Survives(c, ctx) && WellKnown(c)
    && forall e :: e in candidates && Survives(e, ctx) && WellKnown(e) && e.key != c.key ==> FarAhead(c, e, ratio.value)
  }

  ghost predicate SomeSurvivor(candidates: seq<Candidate>, ctx: Context) {
    exists c :: c in candidates && Survives(c, ctx)
  }

  ghost predicate SomeOnlyDirect(candidates: seq<Candidate>, ctx: Context) {
    exists c :: OnlyDirect(candidates, ctx, c)
  }

  ghost predicate SomeOnlyOnPlatform(candidates: seq<Candidate>, ctx: Context) {
    exists c :: OnlyOnPlatform(candidates, ctx, c)
  }

  ghost predicate SomeOnlySurvivor(candidates: seq<Candidate>, ctx: Context) {
    exists c :: OnlySurvivor(candidates, ctx, c)
  }

  lemma TwoDiffer(s: seq<Candidate>, c: Candidate)
    requires DistinctKeys(s) && |s| > 1
    ensures exists e :: e in s && e != c
  {
    assert s[0] in s && s[1] in s && s[0].key != s[1].key;
  }

  /** A filter keeps one candidate exactly when one member of the list satisfies it. */
  lemma OneIsOnly(keep: Candidate -> bool, s: seq<Candidate>, c: Candidate)
    requires DistinctKeys(s)
    ensures Filter(keep, s) == [c] <==> c in s && keep(c) && forall e :: e in s && keep(e) ==> e == c
  {
    var kept := Filter(keep, s);
    FilterMembers(keep, s);
    FilterKeepsDistinct(keep, s);
    if c in s && keep(c) && forall e :: e in s && keep(e) ==> e == c {
      assert c in kept;
      if |kept| > 1 { TwoDiffer(kept, c); }
      assert kept[0] in kept;
    }
  }

  lemma SurvivorsExactly(candidates: seq<Candidate>, ctx: Context)
    requires DistinctKeys(candidates)
    ensures DistinctKeys(Survivors(candidates, ctx))
    ensures forall e :: e in Survivors(candidates, ctx) <==> e in candidates && Survives(e, ctx)
    ensures Survivors(candidates, ctx) == [] <==> !SomeSurvivor(candidates, ctx)
  {
    FilterMembers(x => Survives(x, ctx), candidates);
    FilterKeepsDistinct(x => Survives(x, ctx), candidates);
    hide Survives, Filter;
    if Survivors(candidates, ctx) != [] { assert Survivors(candidates, ctx)[0] in Survivors(candidates, ctx); }
  }

  lemma DominantSurvivorExactly(candidates: seq<Candidate>, ctx: Context, c: Candidate)
    requires DistinctKeys(candidates)
    ensures MarketDominant(Survivors(candidates, ctx), ctx.input.leadRatio) == Some(c) <==> DominantSurvivor(candidates, ctx, c)
  {
    var ratio := ctx.input.leadRatio;
    SurvivorsExactly(candidates, ctx);
    DominantExactly(Survivors(candidates, ctx), ratio, c);
    forall e { WellKnownIsEligible(e, e, 0.0); }
    if ratio.Some? { forall e { WellKnownIsEligible(c, e, ratio.value); } }
    hide Survivors, Survives, MarketDominant, Eligible, Leads, WellKnown, FarAhead, DistinctKeys;
  }

  /** What the four lists of the decision hold, said of the candidates themselves. */
  lemma ListsExactly(candidates: seq<Candidate>, ctx: Context, c: Candidate)
    requires DistinctKeys(candidates)
    ensures var survivors := Survivors(candidates, ctx);
            && DistinctKeys(survivors) && (survivors == [] <==> !SomeSurvivor(candidates, ctx))
            && (Filter(x => Direct(x, ctx), survivors) == [c] <==> OnlyDirect(candidates, ctx, c))
            && (Filter(x => OnNamedPlatform(x, ctx), survivors) == [c] <==> OnlyOnPlatform(candidates, ctx, c))
            && (survivors == [c] <==> OnlySurvivor(candidates, ctx, c))
            && (MarketDominant(survivors, ctx.input.leadRatio) == Some(c) <==> DominantSurvivor(candidates, ctx, c))
  {
    var survivors := Survivors(candidates, ctx);
    SurvivorsExactly(candidates, ctx);
    OneIsOnly(x => Survives(x, ctx), candidates, c);
    hide Survives, Direct, OnNamedPlatform, MarketDominant, Filter, DominantSurvivor, DistinctKeys, SomeSurvivor;
    DominantSurvivorExactly(candidates, ctx, c);
    OneIsOnly(x => Direct(x, ctx), survivors, c);
    OneIsOnly(x => OnNamedPlatform(x, ctx), survivors, c);
  }

  lemma CountsExactly(candidates: seq<Candidate>, ctx: Context)
    requires DistinctKeys(candidates)
    ensures var survivors := Survivors(candidates, ctx);
            && (|Filter(x => Direct(x, ctx), survivors)| == 1 <==> SomeOnlyDirect(candidates, ctx))
            && (|Filter(x => OnNamedPlatform(x, ctx), survivors)| == 1 <==> SomeOnlyOnPlatform(candidates, ctx))
            && (|survivors| == 1 <==> SomeOnlySurvivor(candidates, ctx))
  {
    var survivors := Survivors(candidates, ctx);
    var direct, onPlatform := Filter(x => Direct(x, ctx), survivors), Filter(x => OnNamedPlatform(x, ctx), survivors);
    hide Survives, Direct, OnNamedPlatform, Filter, OnlyDirect, OnlyOnPlatform, OnlySurvivor, Survivors;
    forall c ensures (direct == [c] <==> OnlyDirect(candidates, ctx, c))
                  && (onPlatform == [c] <==> OnlyOnPlatform(candidates, ctx, c))
                  && (survivors == [c] <==> OnlySurvivor(candidates, ctx, c))
    {
      ListsExactly(candidates, ctx, c);
    }
    if |direct| == 1 { assert direct == [direct[0]]; }
    if |onPlatform| == 1 { assert onPlatform == [onPlatform[0]]; }
    if |survivors| == 1 { assert survivors == [survivors[0]]; }
  }

  /** How each kind of pick is announced: its candidate, its confidence and its reason. */
  predicate Announces(d: Decision, c: Candidate, confidence: Confidence, reason: Reason) {
    d.status == Resolved && d.failure == None && d.selected == Some(c) && d.confidence == confidence && d.reason == Some(reason)
  }

  /** The decision read off its lists. */
  lemma DecidedBy(candidates: seq<Candidate>, ctx: Context, c: Candidate)
    ensures var d, survivors := Decide(candidates, ctx), Survivors(candidates, ctx);
            var direct := Filter(x => Direct(x, ctx), survivors);
            var onPlatform := Filter(x => OnNamedPlatform(x, ctx), survivors);
            var open := |direct| != 1 && |onPlatform| != 1;
            && (Announces(d, c, ConfVerified, if AuthorUrlCa in Anchors(c, ctx) then ByUrl else ByAddress) <==> direct == [c])
            && (Announces(d, c, ConfHigh, UniqueLaunchpad) <==> |direct| != 1 && onPlatform == [c])
            && (Announces(d, c, ConfMedium, UniqueVariant) <==> open && survivors == [c])
            && (Announces(d, c, ConfLow, MarketDominance)
                <==> open && |survivors| > 1 && MarketDominant(survivors, ctx.input.leadRatio) == Some(c))
            && (d.selected == Some(c) ==> direct == [c] || onPlatform == [c] || survivors == [c]
                                          || MarketDominant(survivors, ctx.input.leadRatio) == Some(c))
            && (d.status == Ambiguous <==>
                  open && |survivors| > 1 && MarketDominant(survivors, ctx.input.leadRatio).None?)
            && (d.status == Ambiguous ==>
                  d == Decision(Ambiguous, Some(CodeAmbiguous), None, ConfUnknown, Some(MultipleLegalVariants)))
            && (survivors == [] <==> d.status == NotFound || d.status == Rejected)
            && (survivors == [] ==> d.selected.None? && d.confidence == ConfUnknown && d.reason.None?)
  {
    var survivors := Survivors(candidates, ctx);
    FilterMembers(x => Direct(x, ctx), survivors);
    FilterMembers(x => OnNamedPlatform(x, ctx), survivors);
    var direct := Filter(x => Direct(x, ctx), survivors);
    var onPlatform := Filter(x => OnNamedPlatform(x, ctx), survivors);
    assert direct != [] ==> direct[0] in direct;
    assert onPlatform != [] ==> onPlatform[0] in onPlatform;
    hide Survivors, Direct, OnNamedPlatform, Filter, MarketDominant, FailureFrom, Anchors;
  }

  /** More survivors than one are left when somebody survives and nobody survives alone. */
  lemma ManySurvive(candidates: seq<Candidate>, ctx: Context)
    requires DistinctKeys(candidates)
    ensures |Survivors(candidates, ctx)| > 1 <==> SomeSurvivor(candidates, ctx) && !SomeOnlySurvivor(candidates, ctx)
  {
    CountsExactly(candidates, ctx);
    FilterMembers(x => Survives(x, ctx), candidates);
    if Survivors(candidates, ctx) != [] { assert Survivors(candidates, ctx)[0] in Survivors(candidates, ctx); }
    hide Survives, SomeOnlyDirect, SomeOnlyOnPlatform, SomeOnlySurvivor, DistinctKeys;
  }

  /**
   The pick, for candidates with distinct keys: the only survivor the author named by address;
   failing one such, the only survivor on a named platform; failing that, the only survivor;
   failing that, the dominant one; and ambiguous exactly when there are survivors and no pick.
  */
  lemma PickedExactly(candidates: seq<Candidate>, input: Input, c: Candidate)
    requires DistinctKeys(candidates)
    ensures var ctx, d := ContextOf(candidates, input), ApplyResolutionPolicy(candidates, input);
            var named, launched := SomeOnlyDirect(candidates, ctx), SomeOnlyOnPlatform(candidates, ctx);
            var alone := SomeOnlySurvivor(candidates, ctx);
            && (Announces(d, c, ConfVerified, if AuthorUrlCa in Anchors(c, ctx) then ByUrl else ByAddress)
                <==> OnlyDirect(candidates, ctx, c))
            && (Announces(d, c, ConfHigh, UniqueLaunchpad) <==> !named && OnlyOnPlatform(candidates, ctx, c))
            && (Announces(d, c, ConfMedium, UniqueVariant) <==> !named && !launched && OnlySurvivor(candidates, ctx, c))
            && (Announces(d, c, ConfLow, MarketDominance)
                <==> !named && !launched && !alone && DominantSurvivor(candidates, ctx, c))
            && (d.selected == Some(c) ==>
                  || OnlyDirect(candidates, ctx, c) || OnlyOnPlatform(candidates, ctx, c)
                  || OnlySurvivor(candidates, ctx, c) || DominantSurvivor(candidates, ctx, c))
  {
    var ctx := ContextOf(candidates, input);
    ListsExactly(candidates, ctx, c);
    CountsExactly(candidates, ctx);
    ManySurvive(candidates, ctx);
    DecidedBy(candidates, ctx, c);
    DominantSurvives(candidates, ctx, c);
    hide DistinctKeys, Survivors, Direct, OnNamedPlatform, Filter, MarketDominant, Decide, ContextOf, Anchors, Announces;
    hide OnlyDirect, OnlyOnPlatform, OnlySurvivor, DominantSurvivor, SomeSurvivor;
    hide SomeOnlyDirect, SomeOnlyOnPlatform, SomeOnlySurvivor;
  }

  lemma DominantSurvives(candidates: seq<Candidate>, ctx: Context, c: Candidate)
    ensures DominantSurvivor(candidates, ctx, c) ==> SomeSurvivor(candidates, ctx)
  {
  }

  /** Every other outcome: nothing came, everything was rejected, or several are left and none stands out. */
  lemma UndecidedExactly(candidates: seq<Candidate>, input: Input)
    requires DistinctKeys(candidates)
    ensures var ctx, d := ContextOf(candidates, input), ApplyResolutionPolicy(candidates, input);
            && (d.status == NotFound <==> candidates == [])
            && (d.status == Rejected <==> candidates != [] && !SomeSurvivor(candidates, ctx))
            && (d.status == Ambiguous <==>
                  && SomeSurvivor(candidates, ctx) && !SomeOnlySurvivor(candidates, ctx)
                  && !SomeOnlyDirect(candidates, ctx) && !SomeOnlyOnPlatform(candidates, ctx)
                  && forall c :: !DominantSurvivor(candidates, ctx, c))
            && (d.status == Ambiguous ==>
                  d.failure == Some(CodeAmbiguous) && d.confidence == ConfUnknown && d.reason == Some(MultipleLegalVariants))
            && (d.status == NotFound || d.status == Rejected ==> d.confidence == ConfUnknown && d.reason.None?)
  {
    var ctx := ContextOf(candidates, input);
    PickIsClean(candidates, input);
    CountsExactly(candidates, ctx);
    ManySurvive(candidates, ctx);
    hide DistinctKeys, Survivors, Direct, OnNamedPlatform, Filter, MarketDominant, Decide, ContextOf, Survives;
    hide OnlyDirect, OnlyOnPlatform, OnlySurvivor, DominantSurvivor, SomeSurvivor, SomeOnlyDirect, SomeOnlyOnPlatform;
    hide SomeOnlySurvivor;
    var survivors := Survivors(candidates, ctx);
    forall c ensures MarketDominant(survivors, input.leadRatio) == Some(c) <==> DominantSurvivor(candidates, ctx, c) {
      ListsExactly(candidates, ctx, c);
    }
    var any :| true;
    ListsExactly(candidates, ctx, any);
    DecidedBy(candidates, ctx, any);
  }

  ghost predicate SomeRejectedFor(candidates: seq<Candidate>, ctx: Context, rejections: set<Rejection>) {
    exists c, r :: c in candidates && r in rejections && Rejects(c, ctx, r)
  }

  /** The code of a rejection is the first of these groups that rejected anybody. */
  lemma FailureExactly(candidates: seq<Candidate>, input: Input)
    requires ApplyResolutionPolicy(candidates, input).status == Rejected
    ensures var ctx, code := ContextOf(candidates, input), ApplyResolutionPolicy(candidates, input).failure;
            var mismatch := SomeRejectedFor(candidates, ctx, {ProviderAddressMismatch, LaunchpadMismatch});
            var untradable := SomeRejectedFor(candidates, ctx, {RejUntradable, Honeypot, LiquidityBelowPolicy});
            var unknown := SomeRejectedFor(candidates, ctx, {ProviderNotVerified, TradabilityUnknown, LiquidityUnknown});
            var blocked := SomeRejectedFor(candidates, ctx, {ChainNotAllowed});
            && (code == Some(CodeContextMismatch) <==> mismatch)
            && (code == Some(CodeUntradable) <==> !mismatch && untradable)
            && (code == Some(CodeProviderUnknown) <==> !mismatch && !untradable && unknown)
            && (code == Some(CodePolicyBlocked) <==> !mismatch && !untradable && !unknown && blocked)
            && (code == Some(CodeNotFound) <==> !mismatch && !untradable && !unknown && !blocked)
  {
    var ctx := ContextOf(candidates, input);
    assert candidates != [];
    assert ApplyResolutionPolicy(candidates, input).failure == Some(FailureFrom(candidates, ctx)) by {
      hide FailureFrom, Survivors, Filter, MarketDominant, ContextOf;
    }
    hide Decide, ContextOf, Rejects;
  }
}

/** One candidate's evaluation as it pushes its codes. */
module CandidateEvaluation {
  import opened Wrappers
  import opened ResolutionPolicy

  method TermMatches(c: Candidate, ctx: Context) returns (support: seq<Support>)
    ensures forall s :: s in support <==> s != LaunchpadMatch && SupportedBy(c, ctx, s)
  {
    var terms := ctx.input.terms;
    support := [];
    for i := 0 to |terms|
      invariant forall s :: s in support <==> s != LaunchpadMatch && SupportedBy(c, Upto(ctx, i), s)
    {
      var t := terms[i];
      assert terms[..i + 1] == terms[..i] + [t];
      OneMoreTerm(c, ctx, i);
      if Names(t, c) {
        support := support + [AuthorCaMatch];
      } else if (t.kind == TermCashtag || t.kind == TermHashtag) && t.matchKey == c.symbol {
        support := support + [SymbolMatch];
      } else if t.kind == TermApprovedName && t.matchKey == c.nameKey {
        support := support + [ApprovedNameMatch];
      }
    }
    assert terms[..|terms|] == terms;
  }

  function Upto(ctx: Context, i: nat): Context
    requires i <= |ctx.input.terms|
  {
    ctx.(input := ctx.input.(terms := ctx.input.terms[..i]))
  }

  predicate Supports(t: Term, c: Candidate, s: Support) {
    match s
    case AuthorCaMatch => Names(t, c)
    case SymbolMatch => (t.kind == TermCashtag || t.kind == TermHashtag) && t.matchKey == c.symbol
    case ApprovedNameMatch => t.kind == TermApprovedName && t.matchKey == c.nameKey
    case LaunchpadMatch => false
  }

  lemma OneMoreTerm(c: Candidate, ctx: Context, i: nat)
    requires i < |ctx.input.terms|
    ensures forall s :: s != LaunchpadMatch ==>
              (SupportedBy(c, Upto(ctx, i + 1), s)
               <==> SupportedBy(c, Upto(ctx, i), s) || Supports(ctx.input.terms[i], c, s))
  {
    var terms, t := ctx.input.terms, ctx.input.terms[i];
    assert terms[..i + 1] == terms[..i] + [t];
    assert forall u :: u in terms[..i + 1] <==> u in terms[..i] || u == t;
  }

  /** The codes that are pushed are exactly those that apply. */
  method EvaluateCandidate(c: Candidate, ctx: Context)
    returns (rejections: seq<Rejection>, supports: seq<Support>, anchors: set<Anchor>)
    ensures forall r :: r in rejections <==> Rejects(c, ctx, r)
    ensures forall s :: s in supports <==> SupportedBy(c, ctx, s)
    ensures anchors == Anchors(c, ctx)
    ensures rejections == [] <==> Survives(c, ctx)
  {
    rejections := CheckProvider(c, ctx);
    supports := TermMatches(c, ctx);
    if c.instructionText { rejections := rejections + [InstructionText]; }
    anchors := c.anchors;
    var direct := DirectAnchor(c, ctx.input.terms);
    if direct.Some? { anchors := anchors + {direct.value}; }
    if c.launchpad.Some? && c.launchpad.value != "" && c.launchpad.value in ctx.platforms {
      supports := supports + [LaunchpadMatch];
    } else if ctx.platforms != {} {
      rejections := rejections + [LaunchpadMismatch];
    }
    assert rejections != [] ==> rejections[0] in rejections;
  }

  /** The checks on chain, provider answers and liquidity. */
  method CheckProvider(c: Candidate, ctx: Context) returns (rejections: seq<Rejection>)
    ensures forall r :: r in rejections <==> r != InstructionText && r != LaunchpadMismatch && Rejects(c, ctx, r)
  {
    rejections := [];
    var chains := ctx.input.allowedChains;
    if chains != {} && c.key.chain !in chains { rejections := rejections + [ChainNotAllowed]; }
    if c.providerAddress.Some? && c.providerAddress.value != c.key.address {
      rejections := rejections + [ProviderAddressMismatch];
    }
    if c.provider != Verified { rejections := rejections + [ProviderNotVerified]; }
    if c.tradable == Untradable { rejections := rejections + [RejUntradable]; }
    if c.tradable == Unknown { rejections := rejections + [TradabilityUnknown]; }
    if c.honeypot { rejections := rejections + [Honeypot]; }
    var minimum := ctx.input.minLiquidity;
    if minimum.Some? {
      if c.liquidity.None? { rejections := rejections + [LiquidityUnknown]; }
      else if c.liquidity.value < minimum.value { rejections := rejections + [LiquidityBelowPolicy]; }
    }
  }
}

/**
 The bounded pool that verifies candidates: workers share one counter, and each write
 lands at the index its worker took. A step is what happens between two awaits.
*/
module VerificationPool {
  import opened Wrappers
  import opened ResolutionPolicy
  import opened ResolutionTheorems

  datatype Worker = Idle | Busy(index: nat) | Stopped

  datatype Pool = Pool(next: nat, results: seq<Option<Candidate>>, workers: seq<Worker>, calls: seq<nat>)

  function Min(a: nat, b: nat): nat {
    if a < b then a else b
  }

  function Max(a: nat, b: nat): nat {
    if a < b then b else a
  }

  function Start(size: nat, concurrency: nat): Pool {
    Pool(0, seq(size, _ => None), seq(Min(Max(1, concurrency), Max(1, size)), _ => Idle), [])
  }

  /** Worker `w` runs to its next await: it takes an index, or stores its result and looks again. */
  function Step(p: Pool, w: nat, values: seq<Candidate>, verify: Candidate -> Candidate): (q: Pool)
    requires w < |p.workers| && |p.results| == |values|
    ensures |q.workers| == |p.workers| && |q.results| == |p.results|
  {
    match p.workers[w]
    case Stopped => p
    case Idle =>
      if p.next < |values| then
        p.(workers := p.workers[w := Busy(p.next)], next := p.next + 1, calls := p.calls + [p.next])
      else p.(workers := p.workers[w := Stopped])
    case Busy(i) =>
      if i < |values| then p.(results := p.results[i := Some(verify(values[i]))], workers := p.workers[w := Idle])
      else p
  }

  /** Everything below the counter is finished or held by exactly one worker. */
  ghost predicate PoolOk(p: Pool, values: seq<Candidate>, verify: Candidate -> Candidate) {
    && |p.results| == |values| && p.next <= |values|
    && p.calls == seq(p.next, i => i)
    && (forall w :: 0 <= w < |p.workers| && p.workers[w].Busy? ==>
          p.workers[w].index < p.next && p.results[p.workers[w].index].None?)
    && (forall v, w :: 0 <= v < w < |p.workers| && p.workers[v].Busy? && p.workers[w].Busy? ==>
          p.workers[v].index != p.workers[w].index)
    && (forall i :: 0 <= i < |values| && p.results[i].Some? ==> p.results[i].value == verify(values[i]))
    && (forall i :: 0 <= i < p.next && p.results[i].None? ==> Held(p, i))
    && (forall i :: p.next <= i < |values| ==> p.results[i].None?)
    && ((exists w :: 0 <= w < |p.workers| && p.workers[w].Stopped?) ==> p.next == |values|)
  }

  predicate Held(p: Pool, i: nat) {
    exists w :: 0 <= w < |p.workers| && p.workers[w] == Busy(i)
  }

  lemma StepKeeps(p: Pool, w: nat, values: seq<Candidate>, verify: Candidate -> Candidate)
    requires PoolOk(p, values, verify) && w < |p.workers|
    ensures PoolOk(Step(p, w, values, verify), values, verify)
  {
    match p.workers[w]
    case Stopped =>
    case Idle => if p.next < |values| { TakingKeeps(p, w, values, verify); } else { StoppingKeeps(p, w, values, verify); }
    case Busy(i) => StoringKeeps(p, w, values, verify, i);
  }

  lemma HeldElsewhere(p: Pool, q: Pool, w: nat, i: nat)
    requires |q.workers| == |p.workers| && w < |p.workers| && Held(p, i) && p.workers[w] != Busy(i)
    requires forall v :: 0 <= v < |p.workers| && v != w ==> q.workers[v] == p.workers[v]
    ensures Held(q, i)
  {
    var v :| 0 <= v < |p.workers| && p.workers[v] == Busy(i);
    assert q.workers[v] == Busy(i);
  }

  lemma TakingKeeps(p: Pool, w: nat, values: seq<Candidate>, verify: Candidate -> Candidate)
    requires PoolOk(p, values, verify) && w < |p.workers| && p.workers[w].Idle? && p.next < |values|
    ensures PoolOk(Step(p, w, values, verify), values, verify)
  {
    var q := Step(p, w, values, verify);
    assert q.workers[w] == Busy(p.next);
    forall i | 0 <= i < q.next && q.results[i].None? ensures Held(q, i) {
      if i < p.next { HeldElsewhere(p, q, w, i); }
    }
  }

  lemma StoppingKeeps(p: Pool, w: nat, values: seq<Candidate>, verify: Candidate -> Candidate)
    requires PoolOk(p, values, verify) && w < |p.workers| && p.workers[w].Idle? && p.next == |values|
    ensures PoolOk(Step(p, w, values, verify), values, verify)
  {
    var q := Step(p, w, values, verify);
    forall i | 0 <= i < q.next && q.results[i].None? ensures Held(q, i) { HeldElsewhere(p, q, w, i); }
  }

  lemma StoringKeeps(p: Pool, w: nat, values: seq<Candidate>, verify: Candidate -> Candidate, index: nat)
    requires PoolOk(p, values, verify) && w < |p.workers| && p.workers[w] == Busy(index)
    ensures PoolOk(Step(p, w, values, verify), values, verify)
  {
    var q := Step(p, w, values, verify);
    forall i | 0 <= i < q.next && q.results[i].None? ensures Held(q, i) {
      HeldElsewhere(p, q, w, i);
    }
  }

  predicate Valid(schedule: seq<nat>, workers: nat) {
    forall i :: 0 <= i < |schedule| ==> schedule[i] < workers
  }

  /** Workers advance in whatever order their awaits finish. */
  function Run(p: Pool, schedule: seq<nat>, values: seq<Candidate>, verify: Candidate -> Candidate): (q: Pool)
    requires |p.results| == |values| && Valid(schedule, |p.workers|)
    ensures |q.workers| == |p.workers| && |q.results| == |p.results|
    decreases |schedule|
  {
    if schedule == [] then p else Run(Step(p, schedule[0], values, verify), schedule[1..], values, verify)
  }

  lemma {:induction false} RunKeeps(p: Pool, schedule: seq<nat>, values: seq<Candidate>, verify: Candidate -> Candidate)
    requires PoolOk(p, values, verify) && Valid(schedule, |p.workers|)
    ensures PoolOk(Run(p, schedule, values, verify), values, verify)
    decreases |schedule|
  {
    if schedule != [] {
      StepKeeps(p, schedule[0], values, verify);
      RunKeeps(Step(p, schedule[0], values, verify), schedule[1..], values, verify);
    }
  }

  predicate Finished(p: Pool) {
    forall w :: 0 <= w < |p.workers| ==> p.workers[w].Stopped?
  }

  function Verified(values: seq<Candidate>, verify: Candidate -> Candidate): seq<Candidate> {
    seq(|values|, i requires 0 <= i < |values| => verify(values[i]))
  }

  /**
   Under every schedule each index is taken once and in order, no more calls are in flight
   than there are workers, and a finished pool holds the same list as a plain map.
  */
  lemma MapConcurrentIsMap(values: seq<Candidate>, concurrency: nat, schedule: seq<nat>, verify: Candidate -> Candidate)
    requires Valid(schedule, |Start(|values|, concurrency).workers|)
    ensures var p := Run(Start(|values|, concurrency), schedule, values, verify);
            && p.calls == seq(p.next, i => i) && InFlight(p.workers) <= Max(1, concurrency)
            && |p.workers| == (if concurrency < 2 || |values| < 2 then 1
                               else if concurrency < |values| then concurrency else |values|)
            && (Finished(p) ==> p.next == |values|
                                && forall i :: 0 <= i < |values| ==> p.results[i] == Some(Verified(values, verify)[i]))
  {
    assert PoolOk(Start(|values|, concurrency), values, verify);
    RunKeeps(Start(|values|, concurrency), schedule, values, verify);
    var p := Run(Start(|values|, concurrency), schedule, values, verify);
    if Finished(p) {
      assert p.workers[0].Stopped?;
      NobodyHolds(p, values, verify);
    }
  }

  /** When every worker stopped nothing is left without its result. */
  lemma NobodyHolds(p: Pool, values: seq<Candidate>, verify: Candidate -> Candidate)
    requires PoolOk(p, values, verify) && Finished(p) && p.next == |values|
    ensures forall i :: 0 <= i < |values| ==> p.results[i].Some?
  {
    assert forall i :: !Held(p, i);
  }

  function InFlight(workers: seq<Worker>): (n: nat)
    ensures n <= |workers|
  {
    if workers == [] then 0
    else InFlight(workers[1..]) + if workers[0].Busy? then 1 else 0
  }

  /** Neither the order of the candidates nor the schedule of their verification changes the decision. */
  lemma ResolutionIsDeterministic(
      a: seq<Candidate>, b: seq<Candidate>, concurrency: nat, first: seq<nat>, second: seq<nat>,
      verify: Candidate -> Candidate, input: Input)
    requires multiset(a) == multiset(b) && DistinctKeys(Verified(a, verify))
    requires Valid(first, |Start(|a|, concurrency).workers|) && Valid(second, |Start(|b|, concurrency).workers|)
    requires Finished(Run(Start(|a|, concurrency), first, a, verify))
    requires Finished(Run(Start(|b|, concurrency), second, b, verify))
    ensures var p := Run(Start(|a|, concurrency), first, a, verify);
            var q := Run(Start(|b|, concurrency), second, b, verify);
            && AllDone(p) && AllDone(q)
            && ApplyResolutionPolicy(Results(p), input) == ApplyResolutionPolicy(Results(q), input)
  {
    MapConcurrentIsMap(a, concurrency, first, verify);
    MapConcurrentIsMap(b, concurrency, second, verify);
    assert Results(Run(Start(|a|, concurrency), first, a, verify)) == Verified(a, verify);
    assert Results(Run(Start(|b|, concurrency), second, b, verify)) == Verified(b, verify);
    VerifiedPermutes(a, b, verify);
    OrderIndependent(Verified(a, verify), Verified(b, verify), input);
  }

  predicate AllDone(p: Pool) {
    forall i :: 0 <= i < |p.results| ==> p.results[i].Some?
  }

  function Results(p: Pool): seq<Candidate>
    requires AllDone(p)
  {
    seq(|p.results|, i requires 0 <= i < |p.results| => p.results[i].value)
  }

  function Without(s: seq<Candidate>, k: nat): seq<Candidate>
    requires k < |s|
  {
    s[..k] + s[k + 1..]
  }

  lemma WithoutOne(s: seq<Candidate>, k: nat)
    requires k < |s|
    ensures multiset(s) == multiset(Without(s, k)) + multiset{s[k]}
  {
    assert s == s[..k] + [s[k]] + s[k + 1..];
  }

  lemma VerifiedWithout(s: seq<Candidate>, k: nat, verify: Candidate -> Candidate)
    requires k < |s|
    ensures multiset(Verified(s, verify)) == multiset(Verified(Without(s, k), verify)) + multiset{verify(s[k])}
  {
    var all := Verified(s, verify);
    assert Verified(Without(s, k), verify) == Without(all, k);
    WithoutOne(all, k);
  }

  /** Mapping keeps a permutation one. */
  lemma {:induction false} VerifiedPermutes(a: seq<Candidate>, b: seq<Candidate>, verify: Candidate -> Candidate)
    requires multiset(a) == multiset(b)
    ensures multiset(Verified(a, verify)) == multiset(Verified(b, verify))
    decreases |a|
  {
    if a == [] {
      assert |multiset(b)| == 0;
    } else {
      var c := a[0];
      assert c in multiset(b);
      var k :| 0 <= k < |b| && b[k] == c;
      WithoutOne(a, 0);
      WithoutOne(b, k);
      VerifiedWithout(a, 0, verify);
      VerifiedWithout(b, k, verify);
      var front, rest := Without(a, 0), Without(b, k);
      hide Verified, Without;
      assert multiset(front) == multiset(a) - multiset{c} && multiset(rest) == multiset(b) - multiset{c};
      VerifiedPermutes(front, rest, verify);
    }
  }
}
