/**
 * The brain import as a replay-safe first-wins merge (src/brain-migrate/): source order
 * and selection, remapping, batches, and pages applied under the skip policy while
 * batches are retried, requests overlap, and runs are cut and started again.
 */
module BrainImport {
  import opened Common

  /** A page of the bundle; `body` stands for everything that is written of it. */
  datatype Page = Page(source: string, slug: string, body: string)

  // ------------------------------------------------------------------------ batches

  function Bytes(ps: seq<Page>, measure: Page -> nat): nat {
    if ps == [] then 0 else Bytes(ps[..|ps| - 1], measure) + measure(ps[|ps| - 1])
  }

  function Flatten(bs: seq<seq<Page>>): seq<Page> {
    if bs == [] then [] else Flatten(bs[..|bs| - 1]) + bs[|bs| - 1]
  }

  /** A batch is never empty, and within both caps unless it is one page. */
  ghost predicate BatchFits(b: seq<Page>, maxPages: nat, maxBytes: nat, measure: Page -> nat) {
    |b| == 1 || (1 < |b| <= maxPages && Bytes(b, measure) <= maxBytes)
  }

  /** A batch is closed only because the next page would not have fitted. */
  ghost predicate BatchFull(b: seq<Page>, next: seq<Page>, maxPages: nat, maxBytes: nat, measure: Page -> nat) {
    next != [] && (|b| >= maxPages || Bytes(b, measure) + measure(next[0]) > maxBytes)
  }

  /** Closed batches that fit and were full, with the batch still open. */
  ghost predicate Batched(
      batches: seq<seq<Page>>, open: seq<Page>, maxPages: nat, maxBytes: nat, measure: Page -> nat)
  {
    && (open == [] ==> batches == [])
    && (open != [] ==> BatchFits(open, maxPages, maxBytes, measure))
    && (forall i :: 0 <= i < |batches| ==> BatchFits(batches[i], maxPages, maxBytes, measure))
    && (forall i :: 0 <= i < |batches| - 1 ==> BatchFull(batches[i], batches[i + 1], maxPages, maxBytes, measure))
    && (batches != [] ==> BatchFull(batches[|batches| - 1], open, maxPages, maxBytes, measure))
  }

  lemma OpenGrows(batches: seq<seq<Page>>, open: seq<Page>, p: Page, maxPages: nat, maxBytes: nat, measure: Page -> nat)
    requires Batched(batches, open, maxPages, maxBytes, measure)
    requires open != [] ==> |open| < maxPages && Bytes(open, measure) + measure(p) <= maxBytes
    ensures Batched(batches, open + [p], maxPages, maxBytes, measure)
  {
    BytesMore(open, p, measure);
    if open != [] {
      assert (open + [p])[0] == open[0];
    }
  }

  lemma BatchCloses(
      batches: seq<seq<Page>>, open: seq<Page>, p: Page, maxPages: nat, maxBytes: nat, measure: Page -> nat)
    requires Batched(batches, open, maxPages, maxBytes, measure) && open != []
    requires |open| >= maxPages || Bytes(open, measure) + measure(p) > maxBytes
    ensures Batched(batches + [open], [p], maxPages, maxBytes, measure)
  {
    var more := batches + [open];
    forall i | 0 <= i < |more| - 1
      ensures BatchFull(more[i], more[i + 1], maxPages, maxBytes, measure)
    {
      if i < |batches| - 1 {
        assert more[i] == batches[i] && more[i + 1] == batches[i + 1];
      }
    }
  }

  lemma AllClosed(batches: seq<seq<Page>>, open: seq<Page>, maxPages: nat, maxBytes: nat, measure: Page -> nat)
    requires Batched(batches, open, maxPages, maxBytes, measure) && open != []
    ensures var more := batches + [open];
            && (forall i :: 0 <= i < |more| ==> BatchFits(more[i], maxPages, maxBytes, measure))
            && forall i :: 0 <= i < |more| - 1 ==> BatchFull(more[i], more[i + 1], maxPages, maxBytes, measure)
  {
  }

  /** The scan's state: everything read so far is in the closed batches and the open one. */
  ghost predicate Scanned(
      pages: seq<Page>, i: nat, batches: seq<seq<Page>>, open: seq<Page>, bytes: nat, maxPages: nat, maxBytes: nat,
      measure: Page -> nat)
    requires i <= |pages|
  {
    && Flatten(batches) + open == pages[..i] && bytes == Bytes(open, measure)
    && Batched(batches, open, maxPages, maxBytes, measure)
  }

  lemma ScanGrows(
      pages: seq<Page>, i: nat, batches: seq<seq<Page>>, open: seq<Page>, bytes: nat, maxPages: nat, maxBytes: nat,
      measure: Page -> nat)
    requires i < |pages| && Scanned(pages, i, batches, open, bytes, maxPages, maxBytes, measure)
    requires open != [] ==> |open| < maxPages && bytes + measure(pages[i]) <= maxBytes
    ensures Scanned(pages, i + 1, batches, open + [pages[i]], bytes + measure(pages[i]), maxPages, maxBytes, measure)
  {
    PageAdded(batches, open, pages, i);
    BytesMore(open, pages[i], measure);
    OpenGrows(batches, open, pages[i], maxPages, maxBytes, measure);
  }

  lemma ScanCloses(
      pages: seq<Page>, i: nat, batches: seq<seq<Page>>, open: seq<Page>, bytes: nat, maxPages: nat, maxBytes: nat,
      measure: Page -> nat)
    requires i < |pages| && Scanned(pages, i, batches, open, bytes, maxPages, maxBytes, measure)
    requires open != [] && (|open| >= maxPages || bytes + measure(pages[i]) > maxBytes)
    ensures Scanned(pages, i + 1, batches + [open], [pages[i]], measure(pages[i]), maxPages, maxBytes, measure)
  {
    PageAdded(batches, open, pages, i);
    BytesMore([], pages[i], measure);
    BatchCloses(batches, open, pages[i], maxPages, maxBytes, measure);
  }

  lemma ScanEnds(
      pages: seq<Page>, batches: seq<seq<Page>>, open: seq<Page>, bytes: nat, maxPages: nat, maxBytes: nat,
      measure: Page -> nat)
    requires Scanned(pages, |pages|, batches, open, bytes, maxPages, maxBytes, measure)
    ensures var all := if open == [] then batches else batches + [open];
            && Flatten(all) == pages
            && (forall i :: 0 <= i < |all| ==> BatchFits(all[i], maxPages, maxBytes, measure))
            && forall i :: 0 <= i < |all| - 1 ==> BatchFull(all[i], all[i + 1], maxPages, maxBytes, measure)
  {
    assert pages[..|pages|] == pages;
    if open != [] {
      AllClosed(batches, open, maxPages, maxBytes, measure);
      FlattenMore(batches, open);
    }
  }

  method BatchPages(pages: seq<Page>, maxPages: nat, maxBytes: nat, measure: Page -> nat)
    returns (batches: seq<seq<Page>>)
    ensures Flatten(batches) == pages
    ensures forall i :: 0 <= i < |batches| ==> BatchFits(batches[i], maxPages, maxBytes, measure)
    ensures forall i :: 0 <= i < |batches| - 1 ==> BatchFull(batches[i], batches[i + 1], maxPages, maxBytes, measure)
  {
    batches := [];
    var batch: seq<Page> := [];
    var bytes: nat := 0;
    for i := 0 to |pages|
      invariant Scanned(pages, i, batches, batch, bytes, maxPages, maxBytes, measure)
    {
      var p := pages[i];
      var size := measure(p);
      if |batch| > 0 && (|batch| >= maxPages || bytes + size > maxBytes) {
        ScanCloses(pages, i, batches, batch, bytes, maxPages, maxBytes, measure);
        batches := batches + [batch];
        batch := [p];
        bytes := size;
      } else {
        ScanGrows(pages, i, batches, batch, bytes, maxPages, maxBytes, measure);
        batch := batch + [p];
        bytes := bytes + size;
      }
    }
    ScanEnds(pages, batches, batch, bytes, maxPages, maxBytes, measure);
    if |batch| > 0 {
      batches := batches + [batch];
    }
  }

  lemma PageAdded(batches: seq<seq<Page>>, batch: seq<Page>, pages: seq<Page>, i: nat)
    requires i < |pages| && Flatten(batches) + batch == pages[..i]
    ensures Flatten(batches) + (batch + [pages[i]]) == pages[..i + 1]
    ensures Flatten(batches + [batch]) + [pages[i]] == pages[..i + 1]
  {
    FlattenMore(batches, batch);
    assert pages[..i + 1] == pages[..i] + [pages[i]];
    assert Flatten(batches) + (batch + [pages[i]]) == (Flatten(batches) + batch) + [pages[i]];
  }

  lemma FlattenMore(bs: seq<seq<Page>>, b: seq<Page>)
    ensures Flatten(bs + [b]) == Flatten(bs) + b
  {
    assert (bs + [b])[..|bs|] == bs;
  }

  lemma BytesMore(b: seq<Page>, p: Page, measure: Page -> nat)
    ensures Bytes(b + [p], measure) == Bytes(b, measure) + measure(p)
    ensures b == [] ==> b + [p] == [p]
  {
    assert (b + [p])[..|b|] == b;
  }

  // ---------------------------------------------------------------------- remapping

  predicate StartsWith(s: string, p: string) {
    |p| <= |s| && s[..|p|] == p
  }

  predicate AgentLike(s: string) {
    s == "agent" || StartsWith(s, "agent-")
  }

  predicate LowerOrDigit(c: char) {
    'a' <= c <= 'z' || '0' <= c <= '9'
  }

  predicate AllLowerOrDigit(s: string) {
    s != "" && forall i :: 0 <= i < |s| ==> LowerOrDigit(s[i])
  }

  predicate Hex24(s: string) {
    |s| == 24 && forall i :: 0 <= i < |s| ==> '0' <= s[i] <= '9' || 'a' <= s[i] <= 'f'
  }

  /** A team and a user, joined by one dash. */
  predicate TeamAndUser(s: string) {
    exists i :: 0 <= i < |s| && s[i] == '-' && AllLowerOrDigit(s[..i]) && AllLowerOrDigit(s[i + 1..])
  }

  predicate ProfileSource(s: string) {
    |s| <= 32 && StartsWith(s, "profile-") && (Hex24(s[8..]) || TeamAndUser(s[8..]))
  }

  predicate PersonSource(s: string) {
    (StartsWith(s, "user-") && AllLowerOrDigit(s[5..])) || ProfileSource(s)
  }

  predicate AllowedTarget(t: string, agentSource: string, from: Option<string>) {
    && !(from.Some? && ProfileSource(t) && from.value != t)
    && (t == agentSource || t == "shared" || t == "public" || PersonSource(t))
  }

  datatype Remap = Target(target: string) | KbOutOfScope | ForbiddenTarget | NoMapping

  function RemapSource(source: string, agentSource: string, given: map<string, string>): Remap {
    if StartsWith(source, "kb-") then KbOutOfScope
    else if source in given then
      if AllowedTarget(given[source], agentSource, Some(source)) then Target(given[source]) else ForbiddenTarget
    else if AgentLike(source) then Target(agentSource)
    else if source == "shared" || source == "public" || PersonSource(source) then Target(source)
    else NoMapping
  }

  /**
   * Whatever map is given, no kb source is imported, no page lands outside the persona's slice, a
   * person's source, shared and public, and a profile other than the persona's own slice receives
   * pages of that same profile only.
   */
  lemma RemapStaysInScope(source: string, agentSource: string, given: map<string, string>)
    requires RemapSource(source, agentSource, given).Target?
    ensures var t := RemapSource(source, agentSource, given).target;
            && !StartsWith(source, "kb-")
            && (t == agentSource || t == "shared" || t == "public" || PersonSource(t))
            && (ProfileSource(t) && t != agentSource ==> t == source)
  {
  }

  /**
   * Where a source goes: nowhere for a kb source, mapped or not; where the map sends it, if that is
   * allowed; else an agent-like source to the persona's own slice, and a person's source, shared and
   * public to themselves.
   */
  lemma RemapSends(source: string, agentSource: string, given: map<string, string>)
    ensures var t := RemapSource(source, agentSource, given);
            if StartsWith(source, "kb-") then t == KbOutOfScope
            else if source in given then
              t == if AllowedTarget(given[source], agentSource, Some(source)) then Target(given[source])
                   else ForbiddenTarget
            else
              && (source == "agent" || StartsWith(source, "agent-") ==> t == Target(agentSource))
              && (source == "shared" || source == "public" || PersonSource(source) ==> t == Target(source))
              && (t == NoMapping ==>
                    source != "agent" && !StartsWith(source, "agent-") && source != "shared" && source != "public"
                    && !PersonSource(source))
  {
    PersonIsNoAgent(source);
  }

  lemma StartsAlike(s: string, p: string)
    requires p != "" && StartsWith(s, p)
    ensures s[0] == p[0]
  {
    assert s[..|p|][0] == p[0];
  }

  /** Lower-case letters and digits, and at least one. */
  predicate Plain(x: string) {
    x != "" && forall i :: 0 <= i < |x| ==> 'a' <= x[i] <= 'z' || '0' <= x[i] <= '9'
  }

  lemma UserSourceIs(s: string)
    ensures StartsWith(s, "user-") && AllLowerOrDigit(s[5..]) <==> exists u :: s == "user-" + u && Plain(u)
  {
    if StartsWith(s, "user-") {
      assert s == "user-" + s[5..];
    }
    if u :| s == "user-" + u && Plain(u) {
      assert s[..5] == "user-" && s[5..] == u;
    }
  }

  lemma ProfileIs(s: string, x: string)
    requires s == "profile-" + x
    ensures StartsWith(s, "profile-") && s[8..] == x
  {
    assert s[..8] == "profile-";
  }

  ghost predicate TwoNames(x: string) {
    exists t, u :: x == t + "-" + u && Plain(t) && Plain(u)
  }

  lemma TeamAndUserIs(x: string)
    ensures TeamAndUser(x) <==> TwoNames(x)
  {
    if i :| 0 <= i < |x| && x[i] == '-' && AllLowerOrDigit(x[..i]) && AllLowerOrDigit(x[i + 1..]) {
      var t, u := x[..i], x[i + 1..];
      assert x == t + "-" + u && Plain(t) && Plain(u);
    }
    if t, u :| x == t + "-" + u && Plain(t) && Plain(u) {
      assert x[|t|] == '-' && x[..|t|] == t && x[|t| + 1..] == u;
    }
  }

  /** Twenty-four hexadecimal digits. */
  predicate Hash(x: string) {
    |x| == 24 && forall i :: 0 <= i < 24 ==> '0' <= x[i] <= '9' || 'a' <= x[i] <= 'f'
  }

  /** A person's sources: their user slice, and a profile by hash or by team and user, 32 characters at most. */
  lemma PersonSourcesAre(s: string)
    ensures PersonSource(s) <==>
            || (exists u :: s == "user-" + u && Plain(u))
            || (|s| <= 32 && exists x :: s == "profile-" + x && (Hash(x) || TwoNames(x)))
  {
    UserSourceIs(s);
    if StartsWith(s, "profile-") {
      assert s == "profile-" + s[8..];
      TeamAndUserIs(s[8..]);
    }
    if x :| s == "profile-" + x && (Hash(x) || TwoNames(x)) {
      ProfileIs(s, x);
      TeamAndUserIs(x);
    }
  }

  lemma PersonIsNoAgent(s: string)
    ensures PersonSource(s) ==> !AgentLike(s)
  {
    if PersonSource(s) {
      StartsAlike(s, if StartsWith(s, "user-") then "user-" else "profile-");
    }
    if StartsWith(s, "agent-") {
      StartsAlike(s, "agent-");
    }
  }

  // ------------------------------------------------------------- the order of sources

  /** `agent-<id>` before `agent-default` before the legacy `agent`. */
  function Rank(s: string): nat {
    if s == "agent" then 2 else if s == "agent-default" then 1 else 0
  }

  function AgentsOf(ss: seq<string>): seq<string> {
    if ss == [] then []
    else AgentsOf(ss[..|ss| - 1]) + if AgentLike(ss[|ss| - 1]) then [ss[|ss| - 1]] else []
  }

  ghost predicate ByRank(ss: seq<string>) {
    forall i, j :: 0 <= i < j < |ss| ==> Rank(ss[i]) <= Rank(ss[j])
  }

  /** Nothing comes after the legacy `agent` but itself, and after `agent-default` only that and itself. */
  ghost predicate MostSpecificFirst(ss: seq<string>) {
    forall i, j :: 0 <= i < j < |ss| ==>
      && (ss[i] == "agent" ==> ss[j] == "agent")
      && (ss[i] == "agent-default" ==> ss[j] == "agent-default" || ss[j] == "agent")
  }

  lemma ByRankIsMostSpecificFirst(ss: seq<string>)
    ensures ByRank(ss) <==> MostSpecificFirst(ss)
  {
    if !ByRank(ss) {
      var i, j :| 0 <= i < j < |ss| && Rank(ss[i]) > Rank(ss[j]);
      assert ss[i] == "agent" || ss[i] == "agent-default";
    }
  }

  /** The agent-like ids put, in the order of `agents`, into the slots agent-like ids occupied. */
  function Placed(keep: seq<string>, agents: seq<string>): seq<string>
    requires |agents| == |AgentsOf(keep)|
  {
    if keep == [] then []
    else
      var n := |keep| - 1;
      if AgentLike(keep[n]) then Placed(keep[..n], agents[..|agents| - 1]) + [agents[|agents| - 1]]
      else Placed(keep[..n], agents) + [keep[n]]
  }

  /** Where the sort puts an id among those sorted so far: by rank, and within a rank as the locale orders them. */
  method PlaceByRank(sorted: seq<string>, s: string, localeLess: (string, string) -> bool) returns (out: seq<string>)
    requires ByRank(sorted)
    ensures ByRank(out) && multiset(out) == multiset(sorted) + multiset{s}
  {
    var i: nat := |sorted|;
    while i > 0 && (Rank(s) < Rank(sorted[i - 1]) || (Rank(s) == Rank(sorted[i - 1]) && localeLess(s, sorted[i - 1])))
      invariant i <= |sorted| && (i < |sorted| ==> Rank(s) <= Rank(sorted[i]))
    {
      i := i - 1;
    }
    assert i > 0 ==> Rank(sorted[i - 1]) <= Rank(s);
    InsertedByRank(sorted, i, s);
    out := sorted[..i] + [s] + sorted[i..];
  }

  lemma InsertedByRank(sorted: seq<string>, i: nat, s: string)
    requires ByRank(sorted) && i <= |sorted| && (i > 0 ==> Rank(sorted[i - 1]) <= Rank(s))
    requires i < |sorted| ==> Rank(s) <= Rank(sorted[i])
    ensures ByRank(sorted[..i] + [s] + sorted[i..])
    ensures multiset(sorted[..i] + [s] + sorted[i..]) == multiset(sorted) + multiset{s}
  {
    assert ByRank(sorted[..i] + [s] + sorted[i..]) by {
      Inserted(sorted, i, s, Rank);
    }
    SameElements(sorted[..i], s, sorted[i..]);
    assert sorted == sorted[..i] + sorted[i..];
  }

  lemma SameElements<T>(low: seq<T>, s: T, high: seq<T>)
    ensures multiset(low + [s] + high) == multiset(low + high) + multiset{s}
  {
  }

  /** An element put between the lower and the higher ones keeps a list ordered. */
  lemma Inserted<T>(sorted: seq<T>, i: nat, s: T, rank: T -> nat)
    requires forall j, k :: 0 <= j < k < |sorted| ==> rank(sorted[j]) <= rank(sorted[k])
    requires i <= |sorted| && (i > 0 ==> rank(sorted[i - 1]) <= rank(s))
    requires i < |sorted| ==> rank(s) <= rank(sorted[i])
    ensures var out := sorted[..i] + [s] + sorted[i..];
            forall j, k :: 0 <= j < k < |out| ==> rank(out[j]) <= rank(out[k])
  {
    var out := sorted[..i] + [s] + sorted[i..];
    forall j, k | 0 <= j < k < |out|
      ensures rank(out[j]) <= rank(out[k])
    {
      if j < i {
        assert rank(sorted[j]) <= rank(s);
      }
      if k > i {
        assert rank(s) <= rank(sorted[k - 1]);
      }
    }
  }

  method SortAgents(ids: seq<string>, localeLess: (string, string) -> bool) returns (agents: seq<string>)
    ensures ByRank(agents) && multiset(agents) == multiset(ids) && MostSpecificFirst(agents)
  {
    agents := [];
    for i := 0 to |ids|
      invariant ByRank(agents) && multiset(agents) == multiset(ids[..i])
    {
      assert ids[..i + 1] == ids[..i] + [ids[i]];
      agents := PlaceByRank(agents, ids[i], localeLess);
    }
    assert ids[..|ids|] == ids;
    ByRankIsMostSpecificFirst(agents);
  }

  /**
   * The exporter's order: the agent-like ids, most specific first, in the slots agent-like ids
   * occupied, and every other id where it was.
   */
  method OrderSources(keep: seq<string>, localeLess: (string, string) -> bool) returns (out: seq<string>)
    ensures |out| == |keep|
    ensures multiset(AgentsOf(out)) == multiset(AgentsOf(keep)) && MostSpecificFirst(AgentsOf(out))
    ensures forall i :: 0 <= i < |keep| ==> if AgentLike(keep[i]) then AgentLike(out[i]) else out[i] == keep[i]
  {
    var agents := SortAgents(AgentsOf(keep), localeLess);
    SameSize(agents, AgentsOf(keep));
    out := [];
    var i: nat := 0;
    for k := 0 to |keep|
      invariant i == |AgentsOf(keep[..k])| <= |agents|
      invariant out == Placed(keep[..k], agents[..i])
    {
      assert keep[..k + 1][..k] == keep[..k];
      AgentsInPrefix(keep, k + 1);
      if AgentLike(keep[k]) {
        assert agents[..i + 1][..i] == agents[..i];
        out := out + [agents[i]];
        i := i + 1;
      } else {
        out := out + [keep[k]];
      }
    }
    assert keep[..|keep|] == keep && agents[..|agents|] == agents;
    PlacedIsOrdered(keep, agents);
    ByRankIsMostSpecificFirst(agents);
  }

  lemma PlacedIsOrdered(keep: seq<string>, agents: seq<string>)
    requires |agents| == |AgentsOf(keep)| && multiset(agents) == multiset(AgentsOf(keep))
    ensures |Placed(keep, agents)| == |keep| && AgentsOf(Placed(keep, agents)) == agents
    ensures forall i :: 0 <= i < |keep| ==>
              if AgentLike(keep[i]) then AgentLike(Placed(keep, agents)[i]) else Placed(keep, agents)[i] == keep[i]
  {
    AgentsAreAgents(keep);
    forall a | a in agents
      ensures AgentLike(a)
    {
      assert a in multiset(agents);
    }
    PlacedAgents(keep, agents);
    PlacedSize(keep, agents);
    forall i | 0 <= i < |keep|
      ensures if AgentLike(keep[i]) then AgentLike(Placed(keep, agents)[i]) else Placed(keep, agents)[i] == keep[i]
    {
      PlacedKeeps(keep, agents, i);
    }
  }

  lemma SameSize<T>(a: seq<T>, b: seq<T>)
    requires multiset(a) == multiset(b)
    ensures |a| == |b|
  {
    assert |multiset(a)| == |a| && |multiset(b)| == |b|;
  }

  lemma {:induction false} AgentsInPrefix(keep: seq<string>, k: nat)
    requires k <= |keep|
    ensures |AgentsOf(keep[..k])| <= |AgentsOf(keep)|
  {
    if k == |keep| {
      assert keep[..k] == keep;
    } else {
      AgentsInPrefix(keep[..|keep| - 1], k);
      assert keep[..|keep| - 1][..k] == keep[..k];
    }
  }

  lemma {:induction false} AgentsAreAgents(ss: seq<string>)
    ensures forall a :: a in AgentsOf(ss) ==> AgentLike(a)
  {
    if ss != [] {
      AgentsAreAgents(ss[..|ss| - 1]);
    }
  }

  lemma AgentsMore(ss: seq<string>, s: string)
    ensures AgentsOf(ss + [s]) == AgentsOf(ss) + if AgentLike(s) then [s] else []
  {
    assert (ss + [s])[..|ss|] == ss;
  }

  /** Placing leaves exactly `agents` in the slots of the agent-like ids. */
  lemma {:induction false} PlacedAgents(keep: seq<string>, agents: seq<string>)
    requires |agents| == |AgentsOf(keep)| && forall a :: a in agents ==> AgentLike(a)
    ensures AgentsOf(Placed(keep, agents)) == agents
  {
    if keep != [] {
      var n := |keep| - 1;
      if AgentLike(keep[n]) {
        var m := |agents| - 1;
        assert agents == agents[..m] + [agents[m]];
        PlacedAgents(keep[..n], agents[..m]);
        AgentsMore(Placed(keep[..n], agents[..m]), agents[m]);
      } else {
        PlacedAgents(keep[..n], agents);
        AgentsMore(Placed(keep[..n], agents), keep[n]);
      }
    }
  }

  /** Every other id stays where it was, and an agent-like slot keeps an agent-like id. */
  lemma {:induction false} PlacedKeeps(keep: seq<string>, agents: seq<string>, i: nat)
    requires |agents| == |AgentsOf(keep)| && (forall a :: a in agents ==> AgentLike(a)) && i < |keep|
    ensures |Placed(keep, agents)| == |keep|
    ensures if AgentLike(keep[i]) then AgentLike(Placed(keep, agents)[i]) else Placed(keep, agents)[i] == keep[i]
  {
    PlacedSize(keep, agents);
    var n := |keep| - 1;
    var some := if AgentLike(keep[n]) then agents[..|agents| - 1] else agents;
    PlacedIs(keep, agents, some);
    if i < n {
      PlacedKeeps(keep[..n], some, i);
      assert keep[..n][i] == keep[i];
    }
  }

  lemma PlacedIs(keep: seq<string>, agents: seq<string>, some: seq<string>)
    requires |agents| == |AgentsOf(keep)| && keep != [] && (forall a :: a in agents ==> AgentLike(a))
    requires some == if AgentLike(keep[|keep| - 1]) then agents[..|agents| - 1] else agents
    ensures var n := |keep| - 1;
            && |some| == |AgentsOf(keep[..n])| && |Placed(keep[..n], some)| == n
            && forall a :: a in some ==> AgentLike(a)
    ensures var n := |keep| - 1;
            && Placed(keep, agents)[..n] == Placed(keep[..n], some)
            && if AgentLike(keep[n]) then AgentLike(Placed(keep, agents)[n]) else Placed(keep, agents)[n] == keep[n]
  {
    PlacedSize(keep[..|keep| - 1], some);
  }

  lemma {:induction false} PlacedSize(keep: seq<string>, agents: seq<string>)
    requires |agents| == |AgentsOf(keep)|
    ensures |Placed(keep, agents)| == |keep|
  {
    if keep != [] {
      var n := |keep| - 1;
      PlacedSize(keep[..n], if AgentLike(keep[n]) then agents[..|agents| - 1] else agents);
    }
  }

  /** A bundle: the pages of each source, in the order of the sources. */
  function BundleOf(order: seq<string>, pagesOf: string -> seq<Page>): seq<Page> {
    if order == [] then [] else BundleOf(order[..|order| - 1], pagesOf) + pagesOf(order[|order| - 1])
  }

  ghost predicate OwnPages(pagesOf: string -> seq<Page>) {
    forall s, p :: p in pagesOf(s) ==> p.source == s
  }

  /** Agent-like pages come in the order of their sources' rank. */
  ghost predicate PagesByRank(ps: seq<Page>) {
    forall i, j :: 0 <= i < j < |ps| && AgentLike(ps[i].source) && AgentLike(ps[j].source) ==>
      Rank(ps[i].source) <= Rank(ps[j].source)
  }

  lemma {:induction false} SourceInOrder(order: seq<string>, pagesOf: string -> seq<Page>, p: Page)
    requires OwnPages(pagesOf) && p in BundleOf(order, pagesOf) && AgentLike(p.source)
    ensures p.source in AgentsOf(order)
  {
    var n := |order| - 1;
    if p in BundleOf(order[..n], pagesOf) {
      SourceInOrder(order[..n], pagesOf, p);
    } else {
      assert p in pagesOf(order[n]);
    }
  }

  lemma {:induction false} BundleByRank(order: seq<string>, pagesOf: string -> seq<Page>)
    requires OwnPages(pagesOf) && ByRank(AgentsOf(order))
    ensures PagesByRank(BundleOf(order, pagesOf))
  {
    if order != [] {
      var n := |order| - 1;
      var before, own := BundleOf(order[..n], pagesOf), pagesOf(order[n]);
      var ranks, all := AgentsOf(order[..n]), AgentsOf(order);
      assert forall i :: 0 <= i < |ranks| ==> all[i] == ranks[i];
      BundleByRank(order[..n], pagesOf);
      var ps := BundleOf(order, pagesOf);
      assert ps == before + own;
      forall i, j | 0 <= i < j < |ps| && AgentLike(ps[i].source) && AgentLike(ps[j].source)
        ensures Rank(ps[i].source) <= Rank(ps[j].source)
      {
        if j >= |before| {
          assert ps[j] == own[j - |before|] && ps[j].source == order[n] == all[|all| - 1];
          if i < |before| {
            assert ps[i] == before[i];
            SourceInOrder(order[..n], pagesOf, ps[i]);
            var a :| 0 <= a < |ranks| && ranks[a] == ps[i].source;
          } else {
            assert ps[i] == own[i - |before|] && ps[i].source == order[n];
          }
        } else {
          assert ps[i] == before[i] && ps[j] == before[j];
        }
      }
    }
  }

  // ------------------------------------------------------------ one clean delivery

  datatype Key = Key(target: string, slug: string)

  /** Where each page goes; every page of a bundle that is sent has a target. */
  type Keys = Page -> Key

  type Store = map<Key, Page>

  /** The skip policy: a page that is there is left as it is. */
  function ApplyPage(store: Store, p: Page, key: Keys): Store {
    if key(p) in store then store else store[key(p) := p]
  }

  function Deliver(store: Store, ps: seq<Page>, key: Keys): Store {
    if ps == [] then store else ApplyPage(Deliver(store, ps[..|ps| - 1], key), ps[|ps| - 1], key)
  }

  /** Page `i` is the bundle's first with its key. */
  ghost predicate FirstOf(ps: seq<Page>, i: nat, key: Keys) {
    i < |ps| && forall j :: 0 <= j < i ==> key(ps[j]) != key(ps[i])
  }

  /** What a store may hold of a bundle: what it held before, and first copies. */
  ghost predicate HoldsFirstCopies(before: Store, store: Store, ps: seq<Page>, key: Keys) {
    && (forall k :: k in before ==> k in store && store[k] == before[k])
    && (forall k :: k in store && k !in before ==>
        exists i: nat :: FirstOf(ps, i, key) && key(ps[i]) == k && store[k] == ps[i])
  }

  ghost predicate HoldsAll(store: Store, ps: seq<Page>, key: Keys) {
    forall i :: 0 <= i < |ps| ==> key(ps[i]) in store
  }

  lemma FirstIsUnique(ps: seq<Page>, i: nat, j: nat, key: Keys)
    requires FirstOf(ps, i, key) && FirstOf(ps, j, key) && key(ps[i]) == key(ps[j])
    ensures i == j
  {
  }

  /** The two facts leave no choice. */
  lemma FirstCopiesDetermine(before: Store, a: Store, b: Store, ps: seq<Page>, key: Keys)
    requires HoldsFirstCopies(before, a, ps, key) && HoldsAll(a, ps, key)
    requires HoldsFirstCopies(before, b, ps, key) && HoldsAll(b, ps, key)
    ensures a == b
  {
    forall k | k in a
      ensures k in b && a[k] == b[k]
    {
      SameCopy(before, a, b, ps, key, k);
    }
    forall k | k in b
      ensures k in a
    {
      SameCopy(before, b, a, ps, key, k);
    }
  }

  lemma SameCopy(before: Store, a: Store, b: Store, ps: seq<Page>, key: Keys, k: Key)
    requires HoldsFirstCopies(before, a, ps, key) && k in a
    requires HoldsFirstCopies(before, b, ps, key) && HoldsAll(b, ps, key)
    ensures k in b && a[k] == b[k]
  {
    if k !in before {
      var i: nat :| FirstOf(ps, i, key) && key(ps[i]) == k && a[k] == ps[i];
      assert key(ps[i]) in b;
      var j: nat :| FirstOf(ps, j, key) && key(ps[j]) == k && b[k] == ps[j];
      FirstIsUnique(ps, i, j, key);
    }
  }

  lemma FirstLater(ps: seq<Page>, n: nat, i: nat, key: Keys)
    requires n <= |ps| && FirstOf(ps[..n], i, key)
    ensures FirstOf(ps, i, key) && ps[..n][i] == ps[i]
  {
    assert forall j :: 0 <= j < n ==> ps[..n][j] == ps[j];
  }

  /** One more page delivered after its predecessors. */
  lemma OneMoreCopy(before: Store, prior: Store, ps: seq<Page>, n: nat, key: Keys)
    requires n < |ps| && HoldsFirstCopies(before, prior, ps[..n], key) && HoldsAll(prior, ps[..n], key)
    ensures HoldsFirstCopies(before, ApplyPage(prior, ps[n], key), ps, key)
  {
    var store := ApplyPage(prior, ps[n], key);
    forall k | k in store && k !in before
      ensures exists i: nat :: FirstOf(ps, i, key) && key(ps[i]) == k && store[k] == ps[i]
    {
      if k in prior {
        var i: nat :| FirstOf(ps[..n], i, key) && key(ps[..n][i]) == k && prior[k] == ps[..n][i];
        FirstLater(ps, n, i, key);
      } else {
        forall j | 0 <= j < n
          ensures key(ps[j]) != k
        {
          assert key(ps[..n][j]) in prior;
        }
        assert FirstOf(ps, n, key);
      }
    }
  }

  lemma OneMoreHeld(prior: Store, ps: seq<Page>, n: nat, key: Keys)
    requires |ps| == n + 1 && HoldsAll(prior, ps[..n], key)
    ensures HoldsAll(ApplyPage(prior, ps[n], key), ps, key)
  {
    forall i | 0 <= i < |ps|
      ensures key(ps[i]) in ApplyPage(prior, ps[n], key)
    {
      assert i < n ==> key(ps[..n][i]) in prior;
    }
  }

  /** A clean delivery keeps what was there and leaves each new slug with its first copy in bundle order. */
  lemma {:induction false} CleanDelivery(before: Store, ps: seq<Page>, key: Keys)
    ensures HoldsFirstCopies(before, Deliver(before, ps, key), ps, key) && HoldsAll(Deliver(before, ps, key), ps, key)
  {
    if ps != [] {
      var n := |ps| - 1;
      CleanDelivery(before, ps[..n], key);
      OneMoreCopy(before, Deliver(before, ps[..n], key), ps, n, key);
      OneMoreHeld(Deliver(before, ps[..n], key), ps, n, key);
    }
  }

  // -------------------------------------------------- retries, overlaps, cuts, re-runs

  /** One request being served: pages `lo..hi` of the bundle, the next one, and what its lookup found. */
  datatype Request = Request(lo: nat, hi: nat, at: nat, found: Option<bool>)

  /**
   * The brain, the pages some request is done with, those that failed in one, every write in order, and
   * the requests.
   */
  datatype State = State(store: Store, done: set<nat>, failed: set<nat>, written: seq<nat>, requests: seq<Request>)

  datatype Event = Send(lo: nat, hi: nat) | Lookup(id: nat) | Write(id: nat) | Fail(id: nat)

  /** The request still has a page to serve. */
  predicate Serves(ps: seq<Page>, s: State, id: nat) {
    id < |s.requests| && s.requests[id].at < s.requests[id].hi <= |ps|
  }

  /**
   * A request is sent only when every page before its batch has been through some request, as the
   * client awaits each batch's answer, in this run or an earlier one; that holds for a batch sent
   * again while its first request is still being served, and for a run begun again from the start.
   * A page fails by its lookup, or by its transaction when the lookup found nothing.
   */
  predicate Possible(ps: seq<Page>, s: State, e: Event) {
    match e
    case Send(lo, hi) => lo <= hi <= |ps| && forall i :: 0 <= i < lo ==> i in s.done
    case Lookup(id) => Serves(ps, s, id) && s.requests[id].found.None?
    case Write(id) => Serves(ps, s, id) && s.requests[id].found.Some?
    case Fail(id) => Serves(ps, s, id) && s.requests[id].found != Some(true)
  }

  /** The request goes on to its next page. */
  function MovedOn(r: Request): Request {
    r.(at := r.at + 1, found := None)
  }

  function Next(ps: seq<Page>, key: Keys, s: State, e: Event): State
    requires Possible(ps, s, e)
  {
    match e
    case Send(lo, hi) => s.(requests := s.requests + [Request(lo, hi, lo, None)])
    case Lookup(id) =>
      var r := s.requests[id];
      s.(requests := s.requests[id := r.(found := Some(key(ps[r.at]) in s.store))])
    case Write(id) =>
      var r := s.requests[id];
      if r.found.value then s.(done := s.done + {r.at}, requests := s.requests[id := MovedOn(r)])
      else
        s.(store := s.store[key(ps[r.at]) := ps[r.at]], done := s.done + {r.at}, written := s.written + [r.at],
           requests := s.requests[id := MovedOn(r)])
    case Fail(id) =>
      var r := s.requests[id];
      s.(done := s.done + {r.at}, failed := s.failed + {r.at}, requests := s.requests[id := MovedOn(r)])
  }

  /**
   * A page is served once by a request, written or failed or found there already, and then the request
   * goes on to the next page; nothing else moves a request, nor the pages served so far.
   */
  lemma ServedInTurn(ps: seq<Page>, key: Keys, s: State, e: Event, id: nat)
    requires Possible(ps, s, e) && id < |s.requests|
    ensures var r, t := s.requests[id], Next(ps, key, s, e);
            && id < |t.requests|
            && if (e.Write? || e.Fail?) && e.id == id then
                 t.requests[id].at == r.at + 1 && t.requests[id].found == None && t.done == s.done + {r.at}
               else
                 && t.requests[id].at == r.at
                 && (e.Send? || e.Lookup? ==> t.done == s.done)
                 && t.requests[id].found == if e.Lookup? && e.id == id then Some(key(ps[r.at]) in s.store) else r.found
    ensures Next(ps, key, s, e).store != s.store ==> e.Write? && s.requests[e.id].found == Some(false)
  {
  }

  /** A history that goes on from `s`. */
  function PlayFrom(ps: seq<Page>, key: Keys, s: State, es: seq<Event>): Option<State> {
    if es == [] then Some(s)
    else
      var before, e := PlayFrom(ps, key, s, es[..|es| - 1]), es[|es| - 1];
      if before.None? || !Possible(ps, before.value, e) then None else Some(Next(ps, key, before.value, e))
  }

  function Play(ps: seq<Page>, key: Keys, before: Store, es: seq<Event>): Option<State> {
    PlayFrom(ps, key, State(before, {}, {}, [], []), es)
  }

  /** The page last written under a key. */
  function LastWrite(ps: seq<Page>, key: Keys, written: seq<nat>, k: Key): Option<nat> {
    if written == [] then None
    else
      var i := written[|written| - 1];
      if i < |ps| && key(ps[i]) == k then Some(i) else LastWrite(ps, key, written[..|written| - 1], k)
  }

  /** What the last write left under a key is what the store holds there, or else what it held before. */
  ghost predicate KeyKept(before: Store, ps: seq<Page>, key: Keys, s: State, k: Key) {
    match LastWrite(ps, key, s.written, k)
    case None => if k in before then k in s.store && s.store[k] == before[k] else k !in s.store
    case Some(j) => k !in before && j < |ps| && key(ps[j]) == k && k in s.store && s.store[k] == ps[j]
  }

  /** Every earlier copy of page `j`'s key failed in some request. */
  ghost predicate EarlierFailed(ps: seq<Page>, key: Keys, s: State, j: nat)
    requires j < |ps|
  {
    forall i :: 0 <= i < j && key(ps[i]) == key(ps[j]) ==> i in s.failed
  }

  ghost predicate RequestKept(before: Store, ps: seq<Page>, key: Keys, s: State, r: Request) {
    && r.lo <= r.at <= r.hi <= |ps|
    && (forall i :: 0 <= i < r.at ==> i in s.done)
    && (r.found == Some(true) && r.at < r.hi ==> key(ps[r.at]) in s.store)
    && (r.found == Some(false) && r.at < r.hi ==> key(ps[r.at]) !in before && EarlierFailed(ps, key, s, r.at))
  }

  ghost predicate Kept(before: Store, ps: seq<Page>, key: Keys, s: State) {
    && (forall k: Key :: KeyKept(before, ps, key, s, k))
    && (forall i :: i in s.done ==> i < |ps| && (key(ps[i]) in s.store || i in s.failed))
    && (forall j :: j in s.written ==> j < |ps| && EarlierFailed(ps, key, s, j))
    && (forall r :: r in s.requests ==> RequestKept(before, ps, key, s, r))
  }

  lemma RequestsKept(before: Store, ps: seq<Page>, key: Keys, s: State, t: State, id: nat)
    requires Kept(before, ps, key, s) && id < |s.requests| == |t.requests|
    requires t.requests == s.requests[id := t.requests[id]] && RequestKept(before, ps, key, t, t.requests[id])
    requires s.done <= t.done && s.failed <= t.failed && s.store.Keys <= t.store.Keys
    ensures forall r :: r in t.requests ==> RequestKept(before, ps, key, t, r)
  {
    forall r | r in t.requests
      ensures RequestKept(before, ps, key, t, r)
    {
      if r != t.requests[id] {
        assert r in s.requests && RequestKept(before, ps, key, s, r);
      }
    }
  }

  lemma SendKeeps(before: Store, ps: seq<Page>, key: Keys, s: State, e: Event)
    requires Kept(before, ps, key, s) && e.Send? && Possible(ps, s, e)
    ensures Kept(before, ps, key, Next(ps, key, s, e))
  {
    var t := Next(ps, key, s, e);
    forall r | r in t.requests
      ensures RequestKept(before, ps, key, t, r)
    {
      assert r in s.requests ==> RequestKept(before, ps, key, s, r);
    }
    forall k: Key
      ensures KeyKept(before, ps, key, t, k)
    {
      assert KeyKept(before, ps, key, s, k);
    }
  }

  /** A page whose key is not there comes after failures only. */
  lemma LookupKeeps(before: Store, ps: seq<Page>, key: Keys, s: State, e: Event)
    requires Kept(before, ps, key, s) && e.Lookup? && Possible(ps, s, e)
    ensures Kept(before, ps, key, Next(ps, key, s, e))
  {
    var t, r := Next(ps, key, s, e), s.requests[e.id];
    assert RequestKept(before, ps, key, s, r) && KeyKept(before, ps, key, s, key(ps[r.at]));
    RequestsKept(before, ps, key, s, t, e.id);
    forall k: Key
      ensures KeyKept(before, ps, key, t, k)
    {
      assert KeyKept(before, ps, key, s, k);
    }
  }

  lemma FailKeeps(before: Store, ps: seq<Page>, key: Keys, s: State, e: Event)
    requires Kept(before, ps, key, s) && e.Fail? && Possible(ps, s, e)
    ensures Kept(before, ps, key, Next(ps, key, s, e))
  {
    var t, r := Next(ps, key, s, e), s.requests[e.id];
    assert RequestKept(before, ps, key, s, r);
    RequestsKept(before, ps, key, s, t, e.id);
    forall k: Key
      ensures KeyKept(before, ps, key, t, k)
    {
      assert KeyKept(before, ps, key, s, k);
    }
  }

  lemma StoreKept(before: Store, ps: seq<Page>, key: Keys, s: State, t: State, j: nat)
    requires (forall k: Key :: KeyKept(before, ps, key, s, k)) && j < |ps| && key(ps[j]) !in before
    requires t.store == s.store[key(ps[j]) := ps[j]] && t.written == s.written + [j]
    ensures forall k: Key :: KeyKept(before, ps, key, t, k)
  {
    forall k: Key
      ensures KeyKept(before, ps, key, t, k)
    {
      assert KeyKept(before, ps, key, s, k);
      assert t.written[..|t.written| - 1] == s.written;
    }
  }

  lemma WriteKeeps(before: Store, ps: seq<Page>, key: Keys, s: State, e: Event)
    requires Kept(before, ps, key, s) && e.Write? && Possible(ps, s, e)
    ensures Kept(before, ps, key, Next(ps, key, s, e))
  {
    var t, r := Next(ps, key, s, e), s.requests[e.id];
    assert RequestKept(before, ps, key, s, r);
    if r.found.value {
      forall k: Key
        ensures KeyKept(before, ps, key, t, k)
      {
        assert KeyKept(before, ps, key, s, k);
      }
    } else {
      StoreKept(before, ps, key, s, t, r.at);
    }
    RequestsKept(before, ps, key, s, t, e.id);
  }

  lemma {:induction false} PlayKeeps(before: Store, ps: seq<Page>, key: Keys, es: seq<Event>)
    requires Play(ps, key, before, es).Some?
    ensures Kept(before, ps, key, Play(ps, key, before, es).value)
  {
    if es == [] {
      forall k: Key
        ensures KeyKept(before, ps, key, State(before, {}, {}, [], []), k)
      {
      }
    } else {
      PlayKeeps(before, ps, key, es[..|es| - 1]);
      var s, e := Play(ps, key, before, es[..|es| - 1]).value, es[|es| - 1];
      match e {
        case Send(_, _) => SendKeeps(before, ps, key, s, e);
        case Lookup(_) => LookupKeeps(before, ps, key, s, e);
        case Write(_) => WriteKeeps(before, ps, key, s, e);
        case Fail(_) => FailKeeps(before, ps, key, s, e);
      }
    }
  }

  // ------------------------------------------------------ what a history leaves

  /** Page `i` is the bundle's first with its key, and the brain had nothing there. */
  ghost predicate FirstNew(before: Store, ps: seq<Page>, key: Keys, i: nat) {
    FirstOf(ps, i, key) && key(ps[i]) !in before
  }

  /** Nothing was ever written under the page's key. */
  ghost predicate Unwritten(ps: seq<Page>, key: Keys, s: State, i: nat)
    requires i < |ps|
  {
    LastWrite(ps, key, s.written, key(ps[i])).None?
  }

  /** The last write under the page's key was of a later, different copy. */
  ghost predicate Overruled(ps: seq<Page>, key: Keys, s: State, i: nat)
    requires i < |ps|
  {
    var w := LastWrite(ps, key, s.written, key(ps[i]));
    w.Some? && i < w.value < |ps| && ps[w.value] != ps[i]
  }

  /** Every new key was last written with its first copy, or with an equal one. */
  ghost predicate NoneLost(before: Store, ps: seq<Page>, key: Keys, s: State) {
    forall i: nat :: FirstNew(before, ps, key, i) ==> !Unwritten(ps, key, s, i) && !Overruled(ps, key, s, i)
  }

  lemma LastWriteWritten(ps: seq<Page>, key: Keys, written: seq<nat>, k: Key)
    ensures var w := LastWrite(ps, key, written, k);
            w.Some? ==> w.value in written && w.value < |ps| && key(ps[w.value]) == k
  {
  }

  lemma {:induction false} FirstExists(ps: seq<Page>, j: nat, key: Keys) returns (i: nat)
    requires j < |ps|
    ensures i <= j && FirstOf(ps, i, key) && key(ps[i]) == key(ps[j])
  {
    i := j;
    if x :| 0 <= x < j && key(ps[x]) == key(ps[j]) {
      i := FirstExists(ps, x, key);
    }
  }

  lemma NoneOverruledHoldsFirst(before: Store, ps: seq<Page>, key: Keys, s: State)
    requires Kept(before, ps, key, s)
    requires forall i: nat :: FirstNew(before, ps, key, i) ==> !Overruled(ps, key, s, i)
    ensures HoldsFirstCopies(before, s.store, ps, key)
  {
    forall k | k in before
      ensures k in s.store && s.store[k] == before[k]
    {
      assert KeyKept(before, ps, key, s, k);
    }
    forall k | k in s.store && k !in before
      ensures exists i: nat :: FirstOf(ps, i, key) && key(ps[i]) == k && s.store[k] == ps[i]
    {
      assert KeyKept(before, ps, key, s, k);
      var j := LastWrite(ps, key, s.written, k).value;
      var i := FirstExists(ps, j, key);
      assert FirstNew(before, ps, key, i);
    }
  }

  lemma NoneUnwrittenHoldsAll(before: Store, ps: seq<Page>, key: Keys, s: State)
    requires Kept(before, ps, key, s)
    requires forall i: nat :: FirstNew(before, ps, key, i) ==> !Unwritten(ps, key, s, i)
    ensures HoldsAll(s.store, ps, key)
  {
    forall j | 0 <= j < |ps|
      ensures key(ps[j]) in s.store
    {
      var i := FirstExists(ps, j, key);
      assert KeyKept(before, ps, key, s, key(ps[j]));
      assert key(ps[i]) !in before ==> FirstNew(before, ps, key, i);
    }
  }

  lemma CleanLosesNone(before: Store, ps: seq<Page>, key: Keys, s: State)
    requires Kept(before, ps, key, s) && HoldsFirstCopies(before, s.store, ps, key) && HoldsAll(s.store, ps, key)
    ensures NoneLost(before, ps, key, s)
  {
    forall i: nat | FirstNew(before, ps, key, i)
      ensures !Unwritten(ps, key, s, i) && !Overruled(ps, key, s, i)
    {
      var k := key(ps[i]);
      assert KeyKept(before, ps, key, s, k) && k in s.store;
      var f: nat :| FirstOf(ps, f, key) && key(ps[f]) == k && s.store[k] == ps[f];
      FirstIsUnique(ps, i, f, key);
    }
  }

  /**
   * However batches are retried, requests overlap, pages fail, and runs are cut and begun again: the
   * brain holds exactly what one clean delivery leaves when, and only when, no new key was left
   * unwritten or last written with a later, different copy.
   */
  lemma DeliveredExactly(before: Store, ps: seq<Page>, key: Keys, es: seq<Event>)
    requires Play(ps, key, before, es).Some?
    ensures var s := Play(ps, key, before, es).value;
            s.store == Deliver(before, ps, key) <==> NoneLost(before, ps, key, s)
  {
    PlayKeeps(before, ps, key, es);
    CleanDelivery(before, ps, key);
    var s := Play(ps, key, before, es).value;
    if NoneLost(before, ps, key, s) {
      NoneOverruledHoldsFirst(before, ps, key, s);
      NoneUnwrittenHoldsAll(before, ps, key, s);
      FirstCopiesDetermine(before, s.store, Deliver(before, ps, key), ps, key);
    } else if s.store == Deliver(before, ps, key) {
      CleanLosesNone(before, ps, key, s);
    }
  }

  /** A first copy that was served is overruled, or left unwritten, only after it failed. */
  lemma LossFollowsAFailure(before: Store, ps: seq<Page>, key: Keys, es: seq<Event>, i: nat)
    requires Play(ps, key, before, es).Some? && FirstNew(before, ps, key, i)
    ensures var s := Play(ps, key, before, es).value;
            Overruled(ps, key, s, i) || (Unwritten(ps, key, s, i) && i in s.done) ==> i in s.failed
  {
    PlayKeeps(before, ps, key, es);
    var s := Play(ps, key, before, es).value;
    assert KeyKept(before, ps, key, s, key(ps[i]));
    LastWriteWritten(ps, key, s.written, key(ps[i]));
  }

  /** No first copy of a new key failed in any request. */
  ghost predicate FirstsSucceed(before: Store, ps: seq<Page>, key: Keys, s: State) {
    forall i: nat :: FirstNew(before, ps, key, i) ==> i !in s.failed
  }

  /**
   * So a history in which no first copy of a new key fails holds nothing but what was there and first
   * copies, whatever other pages fail; and once every page was served it is one clean delivery.
   */
  lemma ReplayIsOneDelivery(before: Store, ps: seq<Page>, key: Keys, es: seq<Event>)
    requires Play(ps, key, before, es).Some?
    ensures var s := Play(ps, key, before, es).value;
            FirstsSucceed(before, ps, key, s) ==>
              && HoldsFirstCopies(before, s.store, ps, key)
              && ((forall i :: 0 <= i < |ps| ==> i in s.done) ==> s.store == Deliver(before, ps, key))
  {
    var s := Play(ps, key, before, es).value;
    if FirstsSucceed(before, ps, key, s) {
      forall i: nat | FirstNew(before, ps, key, i)
        ensures !Overruled(ps, key, s, i) && (i in s.done ==> !Unwritten(ps, key, s, i))
      {
        LossFollowsAFailure(before, ps, key, es, i);
      }
      PlayKeeps(before, ps, key, es);
      NoneOverruledHoldsFirst(before, ps, key, s);
      DeliveredExactly(before, ps, key, es);
    }
  }

  /** A first copy that failed in some request was written by none. */
  ghost predicate FailedForGood(before: Store, ps: seq<Page>, key: Keys, s: State) {
    forall i: nat :: FirstNew(before, ps, key, i) && i in s.failed ==> i !in s.written
  }

  /** Two pages with one key differ. */
  ghost predicate CopiesDiffer(ps: seq<Page>, key: Keys) {
    forall i, j :: 0 <= i < j < |ps| && key(ps[i]) == key(ps[j]) ==> ps[i] != ps[j]
  }

  lemma FailedForGoodIsLost(before: Store, ps: seq<Page>, key: Keys, s: State, i: nat)
    requires Kept(before, ps, key, s) && CopiesDiffer(ps, key)
    requires FirstNew(before, ps, key, i) && i in s.failed && i !in s.written
    ensures Unwritten(ps, key, s, i) || Overruled(ps, key, s, i)
  {
    LastWriteWritten(ps, key, s.written, key(ps[i]));
  }

  /**
   * In terms of failures alone: once every page was served, and where no failed first copy was written
   * by another request, the brain holds what one clean delivery leaves exactly when no first copy of a
   * new key failed.
   */
  lemma CleanWithoutFailuresExactly(before: Store, ps: seq<Page>, key: Keys, es: seq<Event>)
    requires Play(ps, key, before, es).Some? && CopiesDiffer(ps, key)
    requires forall i :: 0 <= i < |ps| ==> i in Play(ps, key, before, es).value.done
    requires FailedForGood(before, ps, key, Play(ps, key, before, es).value)
    ensures var s := Play(ps, key, before, es).value;
            s.store == Deliver(before, ps, key) <==> FirstsSucceed(before, ps, key, s)
  {
    var s := Play(ps, key, before, es).value;
    ReplayIsOneDelivery(before, ps, key, es);
    DeliveredExactly(before, ps, key, es);
    PlayKeeps(before, ps, key, es);
    forall i: nat | FirstNew(before, ps, key, i) && i in s.failed
      ensures Unwritten(ps, key, s, i) || Overruled(ps, key, s, i)
    {
      FailedForGoodIsLost(before, ps, key, s, i);
    }
  }

  // -------------------------------------------------------------- a loss is kept

  /** The key is there, and no request is about to write it. */
  ghost predicate KeySettled(ps: seq<Page>, key: Keys, s: State, k: Key) {
    && k in s.store
    && forall r :: r in s.requests && r.found == Some(false) && r.at < r.hi <= |ps| ==> key(ps[r.at]) != k
  }

  lemma StepLeavesSettled(ps: seq<Page>, key: Keys, s: State, e: Event, k: Key)
    requires KeySettled(ps, key, s, k) && Possible(ps, s, e)
    ensures KeySettled(ps, key, Next(ps, key, s, e), k) && Next(ps, key, s, e).store[k] == s.store[k]
  {
    var t := Next(ps, key, s, e);
    if !e.Send? {
      assert s.requests[e.id] in s.requests;
      assert forall r :: r in t.requests ==> r in s.requests || r == t.requests[e.id];
    }
  }

  /** A key that is there with no request about to write it stays as it is: no re-run restores a copy that was lost. */
  lemma {:induction false} SettledStays(ps: seq<Page>, key: Keys, s: State, es: seq<Event>, k: Key)
    requires KeySettled(ps, key, s, k) && PlayFrom(ps, key, s, es).Some?
    ensures var t := PlayFrom(ps, key, s, es).value; KeySettled(ps, key, t, k) && t.store[k] == s.store[k]
  {
    if es != [] {
      SettledStays(ps, key, s, es[..|es| - 1], k);
      StepLeavesSettled(ps, key, PlayFrom(ps, key, s, es[..|es| - 1]).value, es[|es| - 1], k);
    }
  }

  lemma PlayedOn(ps: seq<Page>, key: Keys, s: State, es: seq<Event>, e: Event)
    requires PlayFrom(ps, key, s, es).Some? && Possible(ps, PlayFrom(ps, key, s, es).value, e)
    ensures PlayFrom(ps, key, s, es + [e]) == Some(Next(ps, key, PlayFrom(ps, key, s, es).value, e))
  {
    assert (es + [e])[..|es|] == es;
  }

  /** Once the first copy has failed the second is written, for good. */
  lemma SecondIsWritten(p: Page, q: Page, key: Keys, es: seq<Event>)
    requires p != q && key(p) == key(q)
    requires Play([p, q], key, map[], es) == Some(State(map[], {0}, {0}, [], [Request(0, 2, 1, None)]))
    ensures var played := Play([p, q], key, map[], es + [Lookup(0)] + [Write(0)]);
            && played.Some? && (forall i :: 0 <= i < 2 ==> i in played.value.done)
            && Overruled([p, q], key, played.value, 0) && KeySettled([p, q], key, played.value, key(p))
            && played.value.store == map[key(p) := q]
  {
    var ps := [p, q];
    var s0 := State(map[], {}, {}, [], []);
    PlayedOn(ps, key, s0, es, Lookup(0));
    PlayedOn(ps, key, s0, es + [Lookup(0)], Write(0));
    assert [1][..0] == [];
    assert LastWrite(ps, key, [1], key(p)) == Some(1);
  }

  function Served(at: nat, found: Option<bool>): State {
    State(map[], {}, {}, [], [Request(0, 2, at, found)])
  }

  /** The steps up to the failure of the first of two pages. */
  lemma FirstFails(ps: seq<Page>, key: Keys, found: Option<bool>)
    requires |ps| == 2 && found != Some(true)
    ensures Next(ps, key, State(map[], {}, {}, [], []), Send(0, 2)) == Served(0, None)
    ensures Next(ps, key, Served(0, None), Lookup(0)) == Served(0, Some(false))
    ensures Next(ps, key, Served(0, found), Fail(0)) == State(map[], {0}, {0}, [], [Request(0, 2, 1, None)])
  {
    var none: set<nat> := {};
    assert none + {0} == {0};
    assert [] + [Request(0, 2, 0, None)] == [Request(0, 2, 0, None)];
    assert [Request(0, 2, 0, None)][0 := Request(0, 2, 0, Some(false))] == [Request(0, 2, 0, Some(false))];
    assert [Request(0, 2, 0, found)][0 := Request(0, 2, 1, None)] == [Request(0, 2, 1, None)];
  }

  /** The first of two copies fails, in its lookup or after it found nothing, and the second is written. */
  lemma AFailureLosesTheFirstCopy(p: Page, q: Page, key: Keys, looked: bool) returns (es: seq<Event>)
    requires p != q && key(p) == key(q)
    ensures var played := Play([p, q], key, map[], es);
            && played.Some? && (forall i :: 0 <= i < 2 ==> i in played.value.done)
            && Overruled([p, q], key, played.value, 0) && KeySettled([p, q], key, played.value, key(p))
            && played.value.store == map[key(p) := q]
    ensures es == [Send(0, 2)] + (if looked then [Lookup(0)] else []) + [Fail(0), Lookup(0), Write(0)]
  {
    var ps := [p, q];
    var s0 := State(map[], {}, {}, [], []);
    FirstFails(ps, key, if looked then Some(false) else None);
    PlayedOn(ps, key, s0, [], Send(0, 2));
    var served := [] + [Send(0, 2)];
    if looked {
      PlayedOn(ps, key, s0, served, Lookup(0));
      served := served + [Lookup(0)];
    }
    PlayedOn(ps, key, s0, served, Fail(0));
    SecondIsWritten(p, q, key, served + [Fail(0)]);
    es := served + [Fail(0)] + [Lookup(0)] + [Write(0)];
  }

  /** The key a page is written under: its remapped source and its slug. */
  function KeyFor(agentSource: string, given: map<string, string>): Keys {
    (p: Page) =>
      var r := RemapSource(p.source, agentSource, given);
      Key(if r.Target? then r.target else p.source, p.slug)
  }

  /** A page lands in the agent slice because the operator mapped its source there, or its source is agent-like. */
  lemma OnlyAgentsLandThere(p: Page, agentSource: string, given: map<string, string>)
    requires AgentLike(agentSource) && KeyFor(agentSource, given)(p).target == agentSource
    ensures AgentLike(p.source) || (p.source in given && given[p.source] == agentSource)
  {
  }

  /** The copy a store holds of a page's key. */
  lemma CopyHeld(before: Store, store: Store, ps: seq<Page>, key: Keys, p: Page) returns (i: nat)
    requires HoldsFirstCopies(before, store, ps, key) && HoldsAll(store, ps, key) && p in ps && key(p) !in before
    ensures FirstOf(ps, i, key) && key(ps[i]) == key(p) && key(p) in store && store[key(p)] == ps[i]
  {
    var j :| 0 <= j < |ps| && ps[j] == p;
    assert key(ps[j]) in store;
    i :| FirstOf(ps, i, key) && key(ps[i]) == key(p) && store[key(p)] == ps[i];
  }

  /** What is kept where `p` lands too: an agent-like source's copy that `p`'s does not rank before, or a mapped one. */
  predicate MostSpecific(held: Page, p: Page, agentSource: string, given: map<string, string>) {
    || (&& AgentLike(held.source) && (held.source == "agent" ==> p.source == "agent")
        && (held.source == "agent-default" ==> p.source == "agent-default" || p.source == "agent"))
    || (held.source in given && given[held.source] == agentSource)
  }

  lemma MostSpecificCopy(before: Store, ps: seq<Page>, agentSource: string, given: map<string, string>, p: Page)
    requires PagesByRank(ps) && AgentLike(agentSource)
    requires p in ps && AgentLike(p.source) && KeyFor(agentSource, given)(p) == Key(agentSource, p.slug)
    requires Key(agentSource, p.slug) !in before
    ensures var store, k := Deliver(before, ps, KeyFor(agentSource, given)), Key(agentSource, p.slug);
            k in store && MostSpecific(store[k], p, agentSource, given)
  {
    var key := KeyFor(agentSource, given);
    CleanDelivery(before, ps, key);
    var i := CopyHeld(before, Deliver(before, ps, key), ps, key, p);
    OnlyAgentsLandThere(ps[i], agentSource, given);
    var j :| 0 <= j < |ps| && ps[j] == p;
  }

  lemma AgentsAreNotKb(s: string)
    ensures !(AgentLike(s) && StartsWith(s, "kb-"))
  {
    if |s| >= 3 {
      assert s[..3][0] == s[0];
    }
    if |s| >= 6 {
      assert s[..6][0] == s[0];
    }
  }

  lemma AgentKey(p: Page, agentSource: string, given: map<string, string>)
    requires AgentLike(p.source) && p.source !in given
    ensures KeyFor(agentSource, given)(p) == Key(agentSource, p.slug)
  {
    AgentsAreNotKb(p.source);
  }

  /**
   * In the agent slice a new slug holds the copy of the most specific agent-like source that has one,
   * or a copy the operator's map sent there: with the sources in an order as `OrderSources` gives, no
   * other copy's source ranks before it.
   */
  lemma AgentSliceIsMostSpecific(
      before: Store, order: seq<string>, pagesOf: string -> seq<Page>, agentSource: string,
      given: map<string, string>, p: Page)
    requires MostSpecificFirst(AgentsOf(order)) && OwnPages(pagesOf) && AgentLike(agentSource)
    requires p in BundleOf(order, pagesOf) && AgentLike(p.source) && p.source !in given
    requires Key(agentSource, p.slug) !in before
    ensures var store := Deliver(before, BundleOf(order, pagesOf), KeyFor(agentSource, given));
            var k := Key(agentSource, p.slug);
            k in store && MostSpecific(store[k], p, agentSource, given)
  {
    ByRankIsMostSpecificFirst(AgentsOf(order));
    BundleByRank(order, pagesOf);
    AgentKey(p, agentSource, given);
    MostSpecificCopy(before, BundleOf(order, pagesOf), agentSource, given, p);
  }
}
