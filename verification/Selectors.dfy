// Both selection policies, plugged into the protocol: what the compacted cache of a whole run contains.

module Selectors {
  import opened Common
  import opened SchedulerModel
  import opened SchedulerInvariant
  import opened WorkerModel
  import opened Dispatch
  import opened Protocol
  import opened ProtocolInvariant
  import opened KVContent
  import opened KVRun
  import opened Quotas
  import opened Ranking
  import opened V3Policy

  /** How tokens are scored and ties are broken, as functions of the cached keys. */
  datatype Scoring = Scoring(score: seq<Cell> -> seq<Option<Score>>, ties: seq<Cell> -> seq<int>)
  {
    ghost predicate Valid() {
      forall cells :: |score(cells)| == |ties(cells)| == |cells| && Distinct(ties(cells))
    }
  }

  /** `nan_to_num_` over all scores. */
  function Cleaned(raw: seq<Option<Score>>): (s: seq<Score>)
    ensures |s| == |raw| && forall i :: 0 <= i < |s| ==> s[i] != PosInf && s[i] == Sanitised(raw[i])
  {
    seq(|raw|, i requires 0 <= i < |raw| => Sanitised(raw[i]))
  }

  function SplitFor(cfg: Config, n: nat, segments: nat): Split {
    Split(n, cfg.budget, cfg.prefix, cfg.recent, segments)
  }

  ghost function Chosen(cfg: Config, segments: nat, v3: bool, s: Scoring, cells: seq<Cell>): seq<nat> {
    var o, p := Order(Cleaned(s.score(cells)), s.ties(cells)), SplitFor(cfg, |cells|, segments);
    if !Fits(o, p) then [] else if v3 then Selection(o, p) else GlobalSelection(o, p)
  }

  ghost function SelectorOf(cfg: Config, segments: nat, v3: bool, s: Scoring): Selector {
    cells => Chosen(cfg, segments, v3, s, cells)
  }

  /** Either policy, under any scoring and any tie-breaking, meets the contract the protocol relies on. */
  lemma PoliciesAreGood(cfg: Config, segments: nat, v3: bool, s: Scoring)
    requires cfg.Valid() && segments > 0 && s.Valid()
    ensures GoodSelector(cfg, SelectorOf(cfg, segments, v3, s))
  {
    hide Selection, GlobalSelection;
    forall cells | |cells| >= cfg.threshold
      ensures GoodKeep(SelectorOf(cfg, segments, v3, s)(cells), |cells|, cfg.budget, cfg.prefix, cfg.recent)
    {
      var o, p := Order(Cleaned(s.score(cells)), s.ties(cells)), SplitFor(cfg, |cells|, segments);
      if v3 {
        SelectionGood(o, p);
      } else {
        SanitisedHasNoRivals(o, p);
        GlobalGood(o, p);
      }
    }
  }

  /** On the raw scores, before sanitising: among unprotected tokens neither policy evicts one that was scored
      above one it keeps in the same pool, the pool being all of them or the segment; a NaN is below every
      number, and only scores of at least 1e30 compete with an infinite one. */
  lemma RawScoresDecide(cfg: Config, segments: nat, v3: bool, s: Scoring, cells: seq<Cell>, g: nat, i: nat, j: nat)
    requires s.Valid() && cfg.Valid() && segments > 0 && |cells| >= cfg.threshold
    requires i in Chosen(cfg, segments, v3, s, cells) && j < |cells| && j !in Chosen(cfg, segments, v3, s, cells)
    requires !V3Policy.Protected(SplitFor(cfg, |cells|, segments), i)
    requires v3 ==> (
      && g < segments
      && Start(SplitFor(cfg, |cells|, segments), g) <= i < Start(SplitFor(cfg, |cells|, segments), g + 1)
      && Start(SplitFor(cfg, |cells|, segments), g) <= j < Start(SplitFor(cfg, |cells|, segments), g + 1))
    ensures i < |cells|
    ensures var a, b := s.score(cells)[i], s.score(cells)[j];
      && (a.Some? && a.value.Finite? && b.Some? && b.value.Finite? ==> a.value.v >= b.value.v)
      && (a.None? && b.Some? ==> b.value.NegInf?)
      && (a.Some? && a.value.Finite? && b == Some(PosInf) ==> a.value.v >= 1.0e30)
  {
    hide Selection, GlobalSelection, Split.Cut, V3Policy.Protected;
    var o, p := Order(Cleaned(s.score(cells)), s.ties(cells)), SplitFor(cfg, |cells|, segments);
    if v3 { SelectionTop(o, p, g, i, j); } else { GlobalKeepsBest(o, p, i, j); }
  }

  /** Physical token `i` of a request, as the worker will see it once everything issued has run. */
  ghost function CellAt(cfg: Config, select: Selector, k: KV, r: RequestId, i: nat): Cell
    requires cfg.Valid() && k.sys.executed <= |k.sys.flight| && i / cfg.blockSize < |CommittedTable(k.sys.s, r)|
  {
    Read(Logical(cfg, select, k.sys).mem, At(CommittedTable(k.sys.s, r), cfg.blockSize, i))
  }

  /** At any point of any run, under either policy: a request's physical cache is an order-preserving
      subsequence of its computed tokens, it still begins with the protected prefix and ends with the
      latest protected tokens, it has no gap from the tokens that were protected as the latest when it was
      last compressed, and each slot holds exactly the cell computed for that token. */
  lemma CompactedCacheContent(cfg: Config, segments: nat, v3: bool, scoring: Scoring, states: seq<KV>, events: seq<Event>, i: nat, r: RequestId)
    requires cfg.Valid() && segments > 0 && scoring.Valid()
    requires var select := SelectorOf(cfg, segments, v3, scoring); IsKVRun(cfg, select, states, events)
    requires i < |states| && r in states[i].sys.s.tables
    ensures var k, select := states[i], SelectorOf(cfg, segments, v3, scoring);
      && k.sys.executed <= |k.sys.flight| && r in k.sys.s.requests && r in k.views
      && var view, computed := k.views[r], k.sys.s.requests[r].computed;
      && |view| == PhysicalTokens(computed, CommittedAnchor(k.sys.s, r))
      && (forall a, b :: 0 <= a < b < |view| ==> view[a] < view[b])
      && (forall a :: 0 <= a < |view| ==> view[a] < computed)
      && (forall a :: 0 <= a < |view| && a < cfg.prefix ==> view[a] == a)
      && (forall a :: 0 <= a < |view| && |view| - cfg.recent <= a ==> view[a] == computed - |view| + a)
      && (CommittedAnchor(k.sys.s, r).Some? ==>
            forall a :: 0 <= a < |view| && cfg.budget - cfg.recent <= a ==>
              view[a] == CommittedAnchor(k.sys.s, r).value.semantic - cfg.budget + a)
      && (forall a: nat :: a < |view| ==> (
            && a / cfg.blockSize < |CommittedTable(k.sys.s, r)|
            && CellAt(cfg, select, k, r, a) == Tag(k.sys.s.requests[r].info, view[a])))
  {
    hide KVInv, IsKVRun, SelectorOf, GoodSelector, Logical, Scoring.Valid;
    var select := SelectorOf(cfg, segments, v3, scoring);
    PoliciesAreGood(cfg, segments, v3, scoring);
    WholeRunContent(cfg, select, states, events, i);
    ContentOf(cfg, select, states[i], r);
  }

  lemma ContentOf(cfg: Config, select: Selector, k: KV, r: RequestId)
    requires cfg.Valid() && KVInv(cfg, select, k) && r in k.sys.s.tables
    ensures k.sys.executed <= |k.sys.flight| && ViewOk(cfg, k.sys.s, Logical(cfg, select, k.sys).mem, r, k.views)
  {
    hide Shape, Stored, Inv, Replay, Faithful, Waiting, ProtocolInvariant.Protected, Stamped, Mirrors;
    SystemCounted(cfg, select, k.sys);
  }
}
