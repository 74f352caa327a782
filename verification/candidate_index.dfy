/**
 The in-memory candidate index. Texts arrive in their normal forms; a value that does not
 normalise is absent. A JavaScript Map keeps its keys in insertion order, so a map comes
 with the list of its keys.
*/
module CandidateIndexModel {
  import opened Wrappers

  /** When a record was fetched, as far as its text parses. */
  datatype Moment = Missing | At(time: int) | Unparsable

  /** What Date.parse makes of a missing fetch time: the text "0" is the year 2000. */
  const MISSING_MOMENT := 946_684_800_000

  datatype Details = Details(
    symbol: string, name: string, matchKey: string, launchpad: string, fetchedAt: Moment, expiresAt: Moment)

  datatype Candidate = Candidate(
    chain: string, address: string, details: Details, family: Option<string>, handles: seq<string>,
    posts: seq<string>, sources: seq<string>)

  /** What normalisation guarantees of a candidate it does not drop. */
  predicate Normal(c: Candidate) {
    && c.chain != "" && c.address != "" && ':' !in c.chain && ':' !in c.address
    && "" !in c.handles && "" !in c.posts
  }

  function KeyOf(c: Candidate): string {
    c.chain + ":" + c.address
  }

  function TimeOf(m: Moment): Option<int> {
    match m
    case Missing => Some(MISSING_MOMENT)
    case At(t) => Some(t)
    case Unparsable => None
  }

  predicate Newer(right: Details, left: Details) {
    var r, l := TimeOf(right.fetchedAt), TimeOf(left.fetchedAt);
    r.Some? && l.Some? && r.value > l.value
  }

  function Union(a: seq<string>, b: seq<string>): seq<string>
    decreases |b|
  {
    if b == [] then a else if b[0] in a then Union(a, b[1..]) else Union(a + [b[0]], b[1..])
  }

  /** The newer record's details, the older record's identity, and everything they list. */
  function Merge(left: Candidate, right: Candidate): Candidate {
    left.(details := if Newer(right.details, left.details) then right.details else left.details,
          family := if left.family.Some? then left.family else right.family,
          handles := Union(left.handles, right.handles), posts := Union(left.posts, right.posts),
          sources := Union(left.sources, right.sources))
  }

  predicate Fresh(c: Candidate, now: int) {
    match c.details.expiresAt
    case Missing => true
    case At(t) => t > now
    case Unparsable => false
  }

  // ----- the index -----

  datatype Kind = BySymbol | ByName | ByApprovedName | ByLaunchpad | ByChainAddress | ByHandle | ByPost

  function Tag(kind: Kind): string {
    match kind
    case BySymbol => "symbol"
    case ByName => "name"
    case ByApprovedName => "approved_name"
    case ByLaunchpad => "launchpad"
    case ByChainAddress => "chain_ca"
    case ByHandle => "x_handle"
    case ByPost => "source_post_id"
  }

  function IndexKey(kind: Kind, value: string): string {
    Tag(kind) + ":" + value
  }

  type Index = map<string, set<string>>

  predicate Entry(index: Index, kind: Kind, value: string, key: string) {
    IndexKey(kind, value) in index && key in index[IndexKey(kind, value)]
  }

  function Added(index: Index, kind: Kind, value: string, key: string): Index {
    if value == "" then index
    else
      var at := IndexKey(kind, value);
      index[at := (if at in index then index[at] else {}) + {key}]
  }

  /** What a candidate can be found by. */
  predicate Provides(c: Candidate, kind: Kind, value: string) {
    value != "" &&
    match kind
    case BySymbol => value == c.details.symbol
    case ByName => value == c.details.name
    case ByApprovedName => value == c.details.matchKey
    case ByLaunchpad => value == c.details.launchpad
    case ByChainAddress => value == KeyOf(c)
    case ByHandle => value in c.handles
    case ByPost => value in c.posts
  }

  /** The index lists a key under a value exactly when the key's candidate provides it. */
  ghost predicate IndexOk(index: Index, candidates: map<string, Candidate>) {
    forall kind, value, key ::
      Entry(index, kind, value, key) <==> key in candidates && Provides(candidates[key], kind, value)
  }

  lemma ColonAfter(a: string, x: string)
    requires ':' !in a
    ensures (a + ":" + x)[|a|] == ':' && forall i :: 0 <= i < |a| ==> (a + ":" + x)[i] != ':'
  {
    forall i | 0 <= i < |a| ensures (a + ":" + x)[i] != ':' { assert (a + ":" + x)[i] == a[i]; }
  }

  lemma FirstColon(a: string, x: string, b: string, y: string)
    requires ':' !in a && ':' !in b && a + ":" + x == b + ":" + y
    ensures a == b && x == y
  {
    var s := a + ":" + x;
    ColonAfter(a, x);
    ColonAfter(b, y);
    assert a == s[..|a|] && b == s[..|b|] && x == s[|a| + 1..] && y == s[|b| + 1..];
  }

  lemma TagsDiffer(a: Kind, b: Kind)
    ensures Tag(a) == Tag(b) <==> a == b
    ensures ':' !in Tag(a)
  {
    if a != b && |Tag(a)| == |Tag(b)| { assert Tag(a)[0] != Tag(b)[0]; }
  }

  /** Different kinds or values never share an index key. */
  lemma IndexKeysAreInjective(a: Kind, x: string, b: Kind, y: string)
    ensures IndexKey(a, x) == IndexKey(b, y) <==> a == b && x == y
  {
    TagsDiffer(a, b);
    TagsDiffer(b, a);
    if IndexKey(a, x) == IndexKey(b, y) { FirstColon(Tag(a), x, Tag(b), y); }
  }

  lemma AddedEntry(index: Index, kind: Kind, value: string, key: string)
    ensures forall k, v, j :: Entry(Added(index, kind, value, key), k, v, j)
              <==> Entry(index, k, v, j) || (value != "" && k == kind && v == value && j == key)
  {
    forall k, v { IndexKeysAreInjective(k, v, kind, value); }
    hide IndexKey;
  }

  // ----- terms -----

  datatype TermKind = TermCa | TermCashtag | TermHashtag | TermApprovedName | TermHandle | TermOther

  /** The normal forms of a term that the lookups compare. */
  datatype Term = Term(kind: TermKind, normalized: string, symbol: string, name: string, matchKey: string, handle: string)

  /** A term matches a candidate, said without the index. */
  predicate Matches(t: Term, c: Candidate) {
    match t.kind
    case TermCa => t.normalized == c.address
    case TermCashtag => t.symbol != "" && t.symbol == c.details.symbol
    case TermHashtag => t.symbol != "" && t.symbol == c.details.symbol
    case TermApprovedName =>
      (t.name != "" && t.name == c.details.name) || (t.matchKey != "" && t.matchKey == c.details.matchKey)
    case TermHandle => t.handle != "" && t.handle in c.handles
    case TermOther => false
  }

  predicate EndsWith(s: string, suffix: string) {
    |suffix| <= |s| && s[|s| - |suffix|..] == suffix
  }

  /** A key has one colon, between chain and address. */
  lemma OnlyColon(c: Candidate, i: nat)
    requires Normal(c) && i < |KeyOf(c)|
    ensures KeyOf(c)[i] == ':' <==> i == |c.chain|
  {
    if i < |c.chain| { assert KeyOf(c)[i] == c.chain[i]; }
    if i > |c.chain| { assert KeyOf(c)[i] == c.address[i - |c.chain| - 1]; }
  }

  /** On keys the suffix test is equality of addresses. */
  lemma SuffixIsAddress(c: Candidate, text: string)
    requires Normal(c)
    ensures EndsWith(KeyOf(c), ":" + text) <==> text == c.address
  {
    var key := KeyOf(c);
    assert key[|c.chain|..] == ":" + c.address;
    if EndsWith(key, ":" + text) {
      var at := |key| - |text| - 1;
      assert key[at] == (":" + text)[0];
      OnlyColon(c, at);
      assert text == (":" + text)[1..] && c.address == (":" + c.address)[1..];
    }
  }
}

/** The index object, and what its methods leave behind. */
module CandidateIndexObject {
  import opened Wrappers
  import opened CandidateIndexModel

  /** The candidates that normalised, folded by key in the order they came. */
  function Gather(values: seq<Option<Candidate>>): map<string, Candidate> {
    if values == [] then map[]
    else
      var before := Gather(values[..|values| - 1]);
      match values[|values| - 1]
      case None => before
      case Some(c) =>
        var key := KeyOf(c);
        before[key := if key in before then Merge(before[key], c) else c]
  }

  predicate AllNormal(values: seq<Option<Candidate>>) {
    forall i :: 0 <= i < |values| && values[i].Some? ==> Normal(values[i].value)
  }

  predicate Keyed(candidates: map<string, Candidate>) {
    forall key :: key in candidates ==> KeyOf(candidates[key]) == key && Normal(candidates[key])
  }

  lemma {:induction false} UnionIsUnion(a: seq<string>, b: seq<string>)
    ensures forall s :: s in Union(a, b) <==> s in a || s in b
    decreases |b|
  {
    if b != [] { UnionIsUnion(if b[0] in a then a else a + [b[0]], b[1..]); }
  }

  lemma MergeKeeps(left: Candidate, right: Candidate)
    requires Normal(left) && Normal(right)
    ensures Normal(Merge(left, right)) && KeyOf(Merge(left, right)) == KeyOf(left)
  {
    UnionIsUnion(left.handles, right.handles);
    UnionIsUnion(left.posts, right.posts);
  }

  lemma {:induction false} GatherKeyed(values: seq<Option<Candidate>>)
    requires AllNormal(values)
    ensures Keyed(Gather(values))
  {
    if values != [] {
      var front, last := values[..|values| - 1], values[|values| - 1];
      GatherKeyed(front);
      if last.Some? && KeyOf(last.value) in Gather(front) { MergeKeeps(Gather(front)[KeyOf(last.value)], last.value); }
    }
  }

  predicate Listed(values: seq<Option<Candidate>>, key: string) {
    exists i :: 0 <= i < |values| && values[i].Some? && KeyOf(values[i].value) == key
  }

  /** A handle, post or source of some record with this key. */
  predicate ListedHandle(values: seq<Option<Candidate>>, key: string, handle: string) {
    exists i :: 0 <= i < |values| && values[i].Some? && KeyOf(values[i].value) == key && handle in values[i].value.handles
  }

  /** One merged candidate for each key that came, with every handle any of its records listed. */
  lemma {:induction false} GatherIsOnePerKey(values: seq<Option<Candidate>>, key: string, handle: string)
    ensures key in Gather(values) <==> Listed(values, key)
    ensures key in Gather(values) ==> (handle in Gather(values)[key].handles <==> ListedHandle(values, key, handle))
  {
    if values != [] {
      var front, last := values[..|values| - 1], values[|values| - 1];
      GatherIsOnePerKey(front, key, handle);
      assert Listed(values, key) <==> Listed(front, key) || (last.Some? && KeyOf(last.value) == key);
      assert ListedHandle(values, key, handle)
        <==> (ListedHandle(front, key, handle)
              || (last.Some? && KeyOf(last.value) == key && handle in last.value.handles));
      if last.Some? && key in Gather(front) && KeyOf(last.value) == key {
        UnionIsUnion(Gather(front)[key].handles, last.value.handles);
      }
    }
  }

  predicate ListedPost(values: seq<Option<Candidate>>, key: string, post: string) {
    exists i :: 0 <= i < |values| && values[i].Some? && KeyOf(values[i].value) == key && post in values[i].value.posts
  }

  predicate ListedSource(values: seq<Option<Candidate>>, key: string, source: string) {
    exists i :: 0 <= i < |values| && values[i].Some? && KeyOf(values[i].value) == key && source in values[i].value.sources
  }

  /** The family of the first record of the key that has one. */
  predicate FirstFamily(values: seq<Option<Candidate>>, key: string, family: Option<string>) {
    if family.None? then
      forall i :: 0 <= i < |values| && values[i].Some? && KeyOf(values[i].value) == key ==> values[i].value.family.None?
    else
      exists i ::
        && 0 <= i < |values| && values[i].Some? && KeyOf(values[i].value) == key && values[i].value.family == family
        && forall k :: 0 <= k < i && values[k].Some? && KeyOf(values[k].value) == key ==> values[k].value.family.None?
  }

  /** A merged candidate has every post and source of its records, and the first family among them. */
  lemma {:induction false} GatherKeepsLists(values: seq<Option<Candidate>>, key: string, text: string)
    requires key in Gather(values)
    ensures text in Gather(values)[key].posts <==> ListedPost(values, key, text)
    ensures text in Gather(values)[key].sources <==> ListedSource(values, key, text)
    ensures FirstFamily(values, key, Gather(values)[key].family)
  {
    var front, last := values[..|values| - 1], values[|values| - 1];
    assert values == front + [last];
    if key !in Gather(front) {
      GatherIsOnePerKey(front, key, "");
      assert !Listed(front, key);
      assert values[|front|] == last;
    } else {
      GatherKeepsLists(front, key, text);
      var before := Gather(front)[key];
      FamilyGrows(front, last, key, before.family);
      if last.Some? && KeyOf(last.value) == key {
        UnionIsUnion(before.posts, last.value.posts);
        UnionIsUnion(before.sources, last.value.sources);
      }
      hide Gather, FirstFamily;
      assert ListedPost(values, key, text)
        <==> ListedPost(front, key, text) || (last.Some? && KeyOf(last.value) == key && text in last.value.posts);
      assert ListedSource(values, key, text)
        <==> ListedSource(front, key, text) || (last.Some? && KeyOf(last.value) == key && text in last.value.sources);
    }
  }

  lemma FamilyGrows(front: seq<Option<Candidate>>, last: Option<Candidate>, key: string, family: Option<string>)
    requires FirstFamily(front, key, family)
    ensures FirstFamily(front + [last], key,
              if family.None? && last.Some? && KeyOf(last.value) == key then last.value.family else family)
  {
    var values := front + [last];
    if family.Some? {
      var i :| && 0 <= i < |front| && front[i].Some? && KeyOf(front[i].value) == key && front[i].value.family == family
               && forall k :: 0 <= k < i && front[k].Some? && KeyOf(front[k].value) == key ==> front[k].value.family.None?;
      assert values[i] == front[i];
    } else {
      assert values[|front|] == last;
    }
  }

  predicate HasRecord(values: seq<Option<Candidate>>, key: string, details: Details) {
    exists i :: 0 <= i < |values| && values[i].Some? && KeyOf(values[i].value) == key && values[i].value.details == details
  }

  /** Fetched later: a missing time is the start of the year 2000, and one that does not parse compares with none. */
  predicate FetchedLater(a: Moment, b: Moment) {
    match (a, b)
    case (At(x), At(y)) => x > y
    case (At(x), Missing) => x > 946_684_800_000
    case (Missing, At(y)) => 946_684_800_000 > y
    case _ => false
  }

  /** No record of the key was fetched later than these details. */
  predicate NoneNewer(values: seq<Option<Candidate>>, key: string, details: Details) {
    forall i :: 0 <= i < |values| && values[i].Some? && KeyOf(values[i].value) == key ==>
      !FetchedLater(values[i].value.details.fetchedAt, details.fetchedAt)
  }

  lemma NewerIsLater(a: Details, b: Details)
    ensures Newer(a, b) <==> FetchedLater(a.fetchedAt, b.fetchedAt)
  {
  }

  lemma NewerIsOrder(a: Details, b: Details, c: Details)
    ensures !Newer(a, b) && Newer(c, b) ==> !Newer(a, c)
    ensures !Newer(a, a)
  {
  }

  /** The merged details are those of one record, and no record that came is newer. */
  lemma {:induction false} NewestRecordWins(values: seq<Option<Candidate>>, key: string)
    requires key in Gather(values)
    ensures HasRecord(values, key, Gather(values)[key].details)
    ensures NoneNewer(values, key, Gather(values)[key].details)
  {
    var front, last := values[..|values| - 1], values[|values| - 1];
    assert values == front + [last];
    if key in Gather(front) {
      NewestRecordWins(front, key);
      var i :| 0 <= i < |front| && front[i].Some? && KeyOf(front[i].value) == key
               && front[i].value.details == Gather(front)[key].details;
      assert values[i] == front[i];
    }
    var merged := Gather(values)[key].details;
    assert HasRecord(values, key, merged) by {
      if last.Some? && KeyOf(last.value) == key { assert values[|front|] == last; }
    }
    forall i | 0 <= i < |values| && values[i].Some? && KeyOf(values[i].value) == key
      ensures !FetchedLater(values[i].value.details.fetchedAt, merged.fetchedAt)
    {
      assert i < |front| ==> values[i] == front[i];
      NewerIsOrder(merged, merged, merged);
      NewerIsLater(values[i].value.details, merged);
      if key in Gather(front) {
        NewerIsLater(values[i].value.details, Gather(front)[key].details);
        NewerIsOrder(values[i].value.details, Gather(front)[key].details, merged);
      } else {
        GatherIsOnePerKey(front, key, "");
      }
    }
  }

  /** The index lists what the candidates of these keys provide, and nothing else. */
  ghost predicate Indexed(index: Index, candidates: map<string, Candidate>, done: set<string>)
    requires forall key :: key in done ==> key in candidates
  {
    forall kind, value, key ::
      Entry(index, kind, value, key) <==> key in done && Provides(candidates[key], kind, value)
  }

  /** One more candidate is listed. */
  ghost predicate Lists(before: Index, after: Index, c: Candidate) {
    forall kind, value, key ::
      Entry(after, kind, value, key)
      <==> Entry(before, kind, value, key) || (key == KeyOf(c) && Provides(c, kind, value))
  }

  lemma IndexedOneMore(before: Index, after: Index, candidates: map<string, Candidate>, done: set<string>, key: string)
    requires key in candidates && KeyOf(candidates[key]) == key && forall k :: k in done ==> k in candidates
    requires Indexed(before, candidates, done) && Lists(before, after, candidates[key])
    ensures Indexed(after, candidates, done + {key})
  {
    hide Entry, Provides;
  }

  /** Without an expiry or before it, never with one that does not parse, and on an allowed chain. */
  predicate Selectable(c: Candidate, now: int, allowed: set<string>) {
    && (c.details.expiresAt == Missing || (c.details.expiresAt.At? && c.details.expiresAt.time > now))
    && (allowed == {} || c.chain in allowed)
  }

  predicate MatchedBy(terms: seq<Term>, c: Candidate) {
    exists i :: 0 <= i < |terms| && Matches(terms[i], c)
  }

  /** The scan: every fresh candidate of an allowed chain that some term matches. */
  ghost predicate IsScan(found: map<string, Candidate>, candidates: map<string, Candidate>, terms: seq<Term>, now: int,
                         allowed: set<string>)
  {
    && (forall key :: key in found <==>
          key in candidates && Selectable(candidates[key], now, allowed) && MatchedBy(terms, candidates[key]))
    && (forall key :: key in found && key in candidates ==> found[key] == candidates[key])
  }

  class CandidateIndex {
    var candidates: map<string, Candidate>
    var keys: seq<string>
    var index: Index

    ghost predicate Valid()
      reads this
    {
      && Keyed(candidates)
      && (forall key :: key in candidates <==> key in keys)
      && IndexOk(index, candidates)
    }

    constructor (values: seq<Option<Candidate>>)
      requires AllNormal(values)
      ensures Valid() && candidates == Gather(values)
    {
      candidates, keys, index := map[], [], map[];
      new;
      Replace(values);
    }

    method Collect(values: seq<Option<Candidate>>)
      modifies `candidates, `keys
      ensures candidates == Gather(values) && forall key :: key in candidates <==> key in keys
    {
      candidates, keys := map[], [];
      for i := 0 to |values|
        invariant candidates == Gather(values[..i]) && forall key :: key in candidates <==> key in keys
      {
        assert values[..i + 1][..i] == values[..i];
        if values[i].Some? {
          var c := values[i].value;
          var key := KeyOf(c);
          if key in candidates {
            candidates := candidates[key := Merge(candidates[key], c)];
          } else {
            candidates, keys := candidates[key := c], keys + [key];
          }
        }
      }
      assert values[..|values|] == values;
    }

    /** Whatever was held before, afterwards the object holds exactly the given values. */
    method Replace(values: seq<Option<Candidate>>)
      requires AllNormal(values)
      modifies this
      ensures Valid() && candidates == Gather(values)
    {
      index := map[];
      Collect(values);
      GatherKeyed(values);
      hide Gather, Provides, AllNormal, Normal;
      var order := keys;
      for i := 0 to |order|
        invariant candidates == Gather(values) && keys == order
        invariant Keyed(candidates) && forall key :: key in candidates <==> key in keys
        invariant Indexed(index, candidates, Done(order[..i]))
      {
        hide Indexed, Lists, Entry;
        var key := order[i];
        assert key in candidates;
        ghost var before := index;
        IndexCandidate(candidates[key]);
        IndexedOneMore(before, index, candidates, Done(order[..i]), key);
        assert order[..i + 1] == order[..i] + [key];
        assert Done(order[..i + 1]) == Done(order[..i]) + {key};
      }
      assert order[..|order|] == order;
      AllIndexed(index, candidates, Done(keys));
    }

    method Add(kind: Kind, value: string, key: string)
      modifies `index
      ensures index == Added(old(index), kind, value, key)
    {
      if value == "" { return; }
      var at := IndexKey(kind, value);
      if at !in index { index := index[at := {}]; }
      index := index[at := index[at] + {key}];
    }

    method IndexCandidate(c: Candidate)
      modifies `index
      ensures Lists(old(index), index, c)
    {
      hide Entry, Added;
      var key := KeyOf(c);
      IndexNames(c);
      ghost var named := index;
      for i := 0 to |c.handles|
        invariant forall k, v, j :: Entry(index, k, v, j)
                    <==> Entry(named, k, v, j) || (k == ByHandle && j == key && v != "" && v in c.handles[..i])
      {
        assert c.handles[..i + 1] == c.handles[..i] + [c.handles[i]];
        AddedEntry(index, ByHandle, c.handles[i], key);
        Add(ByHandle, c.handles[i], key);
      }
      assert c.handles[..|c.handles|] == c.handles;
      ghost var handled := index;
      for i := 0 to |c.posts|
        invariant forall k, v, j :: Entry(index, k, v, j)
                    <==> Entry(handled, k, v, j) || (k == ByPost && j == key && v != "" && v in c.posts[..i])
      {
        assert c.posts[..i + 1] == c.posts[..i] + [c.posts[i]];
        AddedEntry(index, ByPost, c.posts[i], key);
        Add(ByPost, c.posts[i], key);
      }
      assert c.posts[..|c.posts|] == c.posts;
    }

    method IndexNames(c: Candidate)
      modifies `index
      ensures forall k, v, j :: Entry(index, k, v, j)
                <==> (Entry(old(index), k, v, j) || (j == KeyOf(c) && k != ByHandle && k != ByPost && Provides(c, k, v)))
    {
      hide Entry, Added, KeyOf;
      var key := KeyOf(c);
      AddedEntry(index, BySymbol, c.details.symbol, key);
      Add(BySymbol, c.details.symbol, key);
      AddedEntry(index, ByName, c.details.name, key);
      Add(ByName, c.details.name, key);
      AddedEntry(index, ByApprovedName, c.details.matchKey, key);
      Add(ByApprovedName, c.details.matchKey, key);
      AddedEntry(index, ByLaunchpad, c.details.launchpad, key);
      Add(ByLaunchpad, c.details.launchpad, key);
      AddedEntry(index, ByChainAddress, key, key);
      Add(ByChainAddress, key, key);
    }

    method LookupKeys(kind: Kind, value: string) returns (found: set<string>)
      ensures forall key :: key in found <==> Entry(index, kind, value, key)
    {
      var at := IndexKey(kind, value);
      found := if at in index then index[at] else {};
    }

    /** The keys of exactly the candidates that a term matches, found without a scan save for addresses. */
    method KeysFor(t: Term) returns (found: set<string>)
      requires Valid()
      ensures forall key :: key in found <==> key in candidates && Matches(t, candidates[key])
    {
      match t.kind {
        case TermCa => found := KeysEnding(t.normalized);
        case TermCashtag => found := LookupKeys(BySymbol, t.symbol);
        case TermHashtag => found := LookupKeys(BySymbol, t.symbol);
        case TermApprovedName =>
          var named := LookupKeys(ByName, t.name);
          found := LookupKeys(ByApprovedName, t.matchKey);
          found := named + found;
        case TermHandle => found := LookupKeys(ByHandle, t.handle);
        case TermOther => found := {};
      }
      hide Entry, Keyed;
    }

    method KeysEnding(text: string) returns (found: set<string>)
      requires Keyed(candidates) && forall key :: key in candidates <==> key in keys
      ensures forall key :: key in found <==> key in candidates && text == candidates[key].address
    {
      found := {};
      for i := 0 to |keys|
        invariant forall key :: key in found <==> key in keys[..i] && key in candidates && text == candidates[key].address
      {
        var key := keys[i];
        assert key in candidates;
        SuffixIsAddress(candidates[key], text);
        assert keys[..i + 1] == keys[..i] + [key];
        if EndsWith(key, ":" + text) { found := found + {key}; }
      }
    }

    method LookupTerms(terms: seq<Term>, now: int, allowed: set<string>) returns (selected: map<string, Candidate>)
      requires Valid()
      ensures IsScan(selected, candidates, terms, now, allowed)
    {
      selected := map[];
      for i := 0 to |terms|
        invariant IsScan(selected, candidates, terms[..i], now, allowed)
      {
        var t := terms[i];
        var found := KeysFor(t);
        assert terms[..i + 1] == terms[..i] + [t];
        MatchedByOneMore(terms[..i], t);
        hide Valid, Matches, MatchedBy;
        var before := selected;
        var todo := found;
        while todo != {}
          invariant todo <= found
          invariant forall key :: key in selected <==>
                      key in before || (key in found - todo && Selectable(candidates[key], now, allowed))
          invariant forall key :: key in selected && key in candidates ==> selected[key] == candidates[key]
          decreases |todo|
        {
          var key :| key in todo;
          todo := todo - {key};
          var c := candidates[key];
          if Fresh(c, now) && (allowed == {} || c.chain in allowed) { selected := selected[key := c]; }
        }
      }
      assert terms[..|terms|] == terms;
    }
  }

  function Done(keys: seq<string>): set<string> {
    set key | key in keys
  }

  lemma AllIndexed(index: Index, candidates: map<string, Candidate>, done: set<string>)
    requires forall key :: key in candidates <==> key in done
    requires Indexed(index, candidates, done)
    ensures IndexOk(index, candidates)
  {
    hide Entry, Provides;
  }

  lemma MatchedByOneMore(terms: seq<Term>, t: Term)
    ensures forall c :: MatchedBy(terms + [t], c) <==> MatchedBy(terms, c) || Matches(t, c)
  {
    var more := terms + [t];
    forall c ensures MatchedBy(more, c) <==> MatchedBy(terms, c) || Matches(t, c) {
      if MatchedBy(terms, c) {
        var i :| 0 <= i < |terms| && Matches(terms[i], c);
        assert Matches(more[i], c);
      }
      if Matches(t, c) { assert Matches(more[|terms|], c); }
      hide Matches;
    }
  }
}
