// Lengths that the cache manager sees: physical tokens for the attention group, semantic ones elsewhere.

module GroupLengths {
  import opened Common
  import opened SchedulerModel

  /** Everything the coordinator tells a group about one request: the tokens to cover, those computed in all
      and locally, those of the main model, and where the prefill ends. */
  datatype Lengths = Lengths(tokens: nat, computed: nat, local: nat, main: nat, prefillEnd: Option<nat>)
  {
    function Physical(active: Option<Anchor>): Lengths {
      Lengths(PhysicalTokens(tokens, active), PhysicalTokens(computed, active), PhysicalTokens(local, active),
              PhysicalTokens(main, active),
              if prefillEnd.Some? then Some(PhysicalTokens(prefillEnd.value, active)) else None)
    }

    predicate Below(other: Lengths) {
      && tokens <= other.tokens && computed <= other.computed && local <= other.local && main <= other.main
      && (prefillEnd.Some? <==> other.prefillEnd.Some?)
      && (prefillEnd.Some? ==> prefillEnd.value <= other.prefillEnd.value)
    }
  }

  /** One cache group of the host: its page size, the blocks the request already holds there, its own answer
      to the question how many blocks it would have to add, and how many it adds when told the tokens to
      cover and those of the main model. */
  datatype Manager = Manager(blockSize: nat, held: nat, ask: Lengths -> nat, add: (nat, nat) -> nat)
  {
    predicate Valid() {
      blockSize > 0
    }

    /** What is missing to cover this many tokens. */
    function Demand(tokens: nat): nat
      requires Valid()
    {
      if CeilDiv(tokens, blockSize) > held then CeilDiv(tokens, blockSize) - held else 0
    }

    /** The group adds what it lacks. */
    ghost predicate Covering()
      requires Valid()
    {
      forall tokens, main :: add(tokens, main) == Demand(tokens)
    }

    /** Longer requests never ask for less. */
    ghost predicate Monotone() {
      forall a: Lengths, b: Lengths :: a.Below(b) ==> ask(a) <= ask(b)
    }
  }

  /** In physical tokens every length loses what compression removed, and none falls below zero. */
  lemma PhysicalLoses(l: Lengths, anchor: Anchor)
    ensures var removed, p := anchor.semantic - anchor.physical, l.Physical(Some(anchor));
      && p.tokens == (if l.tokens > removed then l.tokens - removed else 0)
      && p.computed == (if l.computed > removed then l.computed - removed else 0)
      && p.local == (if l.local > removed then l.local - removed else 0)
      && p.main == (if l.main > removed then l.main - removed else 0)
      && (p.prefillEnd.Some? <==> l.prefillEnd.Some?)
      && (l.prefillEnd.Some? ==> p.prefillEnd.value == if l.prefillEnd.value > removed then l.prefillEnd.value - removed else 0)
  {
  }

  /** The lengths that group `i` is asked about. Where the host retains states at intervals, an uncompressed
      request's prefill counts as ended. */
  function Asked(attention: nat, active: Option<Anchor>, retention: bool, l: Lengths, i: nat): Lengths {
    if active.Some? then (if i == attention then l.Physical(active) else l)
    else if retention then l.(prefillEnd := Some(0)) else l
  }

  function TotalAsked(managers: seq<Manager>, attention: nat, active: Option<Anchor>, retention: bool, l: Lengths, k: nat): nat
    requires k <= |managers|
  {
    if k == 0 then 0
    else TotalAsked(managers, attention, active, retention, l, k - 1) + managers[k - 1].ask(Asked(attention, active, retention, l, k - 1))
  }

  /** `get_num_blocks_to_allocate` across groups. */
  method CountBlocks(managers: seq<Manager>, attention: nat, active: Option<Anchor>, retention: bool, l: Lengths) returns (count: nat)
    ensures count == TotalAsked(managers, attention, active, retention, l, |managers|)
  {
    var prefillEnd := l.prefillEnd;
    if active.None? && retention {
      prefillEnd := Some(0);
    }
    count := 0;
    for i := 0 to |managers|
      invariant count == TotalAsked(managers, attention, active, retention, l, i)
    {
      var group := l.(prefillEnd := prefillEnd);
      if active.Some? && i == attention {
        group := Lengths(PhysicalTokens(l.tokens, active), PhysicalTokens(l.computed, active), PhysicalTokens(l.local, active),
                         PhysicalTokens(l.main, active), None);
        if prefillEnd.Some? {
          group := group.(prefillEnd := Some(PhysicalTokens(prefillEnd.value, active)));
        }
      }
      count := count + managers[i].ask(group);
    }
  }

  /** What a compressed request's attention group is told in place of a number of tokens: all of them but
      those that compression removed. */
  function Told(attention: bool, active: Option<Anchor>, tokens: nat): (told: nat)
    ensures active.None? || !attention ==> told == tokens
    ensures attention && active.Some? ==>
      told == if tokens + active.value.physical > active.value.semantic then tokens + active.value.physical - active.value.semantic else 0
  {
    if attention then PhysicalTokens(tokens, active) else tokens
  }

  /** `allocate_new_blocks` across groups: each group is told its own numbers, and one that adds what it
      lacks ends with the fewest blocks that cover them. */
  method AllocateNewBlocks(managers: seq<Manager>, attention: nat, active: Option<Anchor>, tokens: nat, main: nat)
    returns (added: seq<nat>)
    requires forall i :: 0 <= i < |managers| ==> managers[i].Valid()
    ensures |added| == |managers|
    ensures forall i :: 0 <= i < |managers| ==>
      added[i] == managers[i].add(Told(i == attention, active, tokens), Told(i == attention, active, main))
    ensures forall i :: 0 <= i < |managers| && managers[i].Covering() ==>
      var need := Told(i == attention, active, tokens);
      && need <= (managers[i].held + added[i]) * managers[i].blockSize
      && (added[i] > 0 ==> need > (managers[i].held + added[i] - 1) * managers[i].blockSize)
  {
    added := [];
    for i := 0 to |managers|
      invariant |added| == i
      invariant forall j :: 0 <= j < i ==>
        added[j] == managers[j].add(Told(j == attention, active, tokens), Told(j == attention, active, main))
    {
      var groupTokens, groupMain := tokens, main;
      if active.Some? && i == attention {
        groupTokens, groupMain := PhysicalTokens(tokens, active), PhysicalTokens(main, active);
      }
      added := added + [managers[i].add(groupTokens, groupMain)];
    }
    forall i | 0 <= i < |managers| && managers[i].Covering()
      ensures var need := Told(i == attention, active, tokens);
        && need <= (managers[i].held + added[i]) * managers[i].blockSize
        && (added[i] > 0 ==> need > (managers[i].held + added[i] - 1) * managers[i].blockSize)
    {
      DemandCovers(managers[i], Told(i == attention, active, tokens));
    }
  }

  /** The demand is the least number of blocks that makes the group cover its tokens. */
  lemma DemandCovers(m: Manager, tokens: nat)
    requires m.Valid()
    ensures tokens <= (m.held + m.Demand(tokens)) * m.blockSize
    ensures m.Demand(tokens) > 0 ==> tokens > (m.held + m.Demand(tokens) - 1) * m.blockSize
  {
    CeilDivLeast(tokens, m.blockSize, m.held + m.Demand(tokens));
    if m.Demand(tokens) > 0 { CeilDivLeast(tokens, m.blockSize, m.held + m.Demand(tokens) - 1); }
  }

  /** A group that asks for what it lacks asks for no more when the request is shorter. */
  lemma DemandMonotone(m: Manager)
    requires m.Valid() && forall l :: m.ask(l) == m.Demand(l.tokens)
    ensures m.Monotone()
  {
    forall a: Lengths, b: Lengths | a.Below(b) ensures m.ask(a) <= m.ask(b) {
      CeilDivLeast(b.tokens, m.blockSize, CeilDiv(b.tokens, m.blockSize));
      CeilDivLeast(a.tokens, m.blockSize, CeilDiv(b.tokens, m.blockSize));
    }
  }

  /** The other groups are asked the same question as for an uncompressed request, so that the difference
      to it is exactly what the attention group saves; it saves something only, never costs, if the host's
      answers are monotone. */
  lemma {:induction false} OnlyAttentionSaves(managers: seq<Manager>, attention: nat, active: Option<Anchor>, l: Lengths, k: nat)
    requires k <= |managers| && active.Some? && active.value.Removed() >= 0
    ensures var saved: int := if attention < k
        then managers[attention].ask(l) - managers[attention].ask(l.Physical(active)) else 0;
      && TotalAsked(managers, attention, active, false, l, k) + saved == TotalAsked(managers, attention, None, false, l, k)
      && (attention < k && managers[attention].Monotone() ==> saved >= 0)
  {
    if k > 0 { OnlyAttentionSaves(managers, attention, active, l, k - 1); }
    assert l.Physical(active).Below(l);
  }

  /** The groups' answers add up, however the groups are split. */
  lemma {:induction false} CountSplits(x: seq<Manager>, y: seq<Manager>, attention: nat, l: Lengths, k: nat)
    requires |x| <= k <= |x| + |y|
    ensures TotalAsked(x + y, attention, None, false, l, k)
      == TotalAsked(x, attention, None, false, l, |x|) + TotalAsked(y, attention, None, false, l, k - |x|)
    decreases k
  {
    if k > |x| {
      CountSplits(x, y, attention, l, k - 1);
      assert (x + y)[k - 1] == y[k - 1 - |x|];
    } else {
      CountFront(x, x + y, attention, l, k);
    }
  }

  lemma {:induction false} CountFront(x: seq<Manager>, z: seq<Manager>, attention: nat, l: Lengths, k: nat)
    requires x <= z && k <= |x|
    ensures TotalAsked(z, attention, None, false, l, k) == TotalAsked(x, attention, None, false, l, k)
  {
    if k > 0 { CountFront(x, z, attention, l, k - 1); }
  }

  /** A single group counts with its own answer. */
  lemma CountOfOne(m: Manager, attention: nat, l: Lengths)
    ensures TotalAsked([m], attention, None, false, l, 1) == m.ask(l)
  {
    assert TotalAsked([m], attention, None, false, l, 0) == 0;
  }

  /** Where states are retained, an uncompressed request counts as if its prefill had ended, and a compressed
      one as anywhere else. */
  lemma {:induction false} RetentionEndsPrefill(managers: seq<Manager>, attention: nat, active: Option<Anchor>, l: Lengths, k: nat)
    requires k <= |managers|
    ensures TotalAsked(managers, attention, active, true, l, k)
      == TotalAsked(managers, attention, active, false,
                    if active.Some? then l else Lengths(l.tokens, l.computed, l.local, l.main, Some(0)), k)
  {
    if k > 0 { RetentionEndsPrefill(managers, attention, active, l, k - 1); }
  }

  /** Where the attention group asks for what it lacks, a compressed request never asks for more blocks than
      uncompressed, and for fewer by exactly that group's lesser lack. */
  lemma CompressionSaves(managers: seq<Manager>, attention: nat, active: Option<Anchor>, l: Lengths)
    requires attention < |managers| && active.Some? && active.value.Removed() >= 0
    requires managers[attention].Valid() && forall a: Lengths :: managers[attention].ask(a) == managers[attention].Demand(a.tokens)
    ensures var m, n := managers[attention], |managers|;
      var saved: int := m.Demand(l.tokens) - m.Demand(PhysicalTokens(l.tokens, active));
      && saved >= 0
      && TotalAsked(managers, attention, active, false, l, n) + saved == TotalAsked(managers, attention, None, false, l, n)
  {
    hide Manager.Demand;
    DemandMonotone(managers[attention]);
    OnlyAttentionSaves(managers, attention, active, l, |managers|);
  }

  /** This many hit tokens leave at least one token and the query suffix to compute; no hit is always allowed. */
  predicate LeavesEnough(info: Info, recompute: nat, hits: nat) {
    hits == 0 || (hits + 1 <= info.prompt && hits + recompute <= info.prompt)
  }

  /** `prefix_cache_hit_cap`: the most prompt tokens that a prefix hit may supply. Only requests that may
      be compressed are capped, and the cap is the largest number that leaves at least one token and the
      method's whole query suffix to compute. */
  function HitCap(cfg: Config, info: Info, recompute: nat): (cap: Option<nat>)
    requires cfg.Valid()
    ensures cap.Some? <==> info.prompt >= cfg.threshold && info.maxTokens >= cfg.minOutput
    ensures cap.Some? ==> forall hits: nat :: LeavesEnough(info, recompute, hits) <==> hits <= cap.value
  {
    if info.prompt < cfg.threshold || info.maxTokens < cfg.minOutput then None
    else
      var limit := if info.prompt - 1 < info.prompt - recompute then info.prompt - 1 else info.prompt - recompute;
      Some(if limit > 0 then limit else 0)
  }
}
