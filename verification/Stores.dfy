/** The pallet's storage: one map per storage item, the ledger and the events, and the writes to single items. */
module Stores {
  import opened Prelude
  import opened Storage

  datatype Store = Store(
    nextRoscaId: RoscaId,
    activeRoscas: map<RoscaId, Details>,
    completedRoscas: set<RoscaId>,
    participants: map<RoscaId, map<Account, nat>>,
    invitedParticipants: map<RoscaId, set<Account>>,
    participantsCount: map<RoscaId, u32>,
    securityDeposits: map<RoscaId, map<Account, u32>>,
    pendingOrder: map<RoscaId, seq<Option<Account>>>,
    activeOrder: map<RoscaId, seq<Account>>,
    pendingDetails: map<RoscaId, Details>,
    nextPayBy: map<RoscaId, u64>,
    finalPayBy: map<RoscaId, u64>,
    eligibleClaimant: map<RoscaId, Account>,
    currentContributors: map<RoscaId, set<Account>>,
    contributionCount: map<RoscaId, u32>,
    defaultCount: map<RoscaId, map<Account, u32>>,
    ledger: Ledger,
    events: seq<(RoscaId, Event)>)

  const EMPTY_STORE := Store(0, map[], {}, map[], map[], map[], map[], map[], map[], map[], map[], map[], map[], map[], map[], map[],
                             Ledger(map[], map[]), [])

  function Find<V>(m: map<RoscaId, V>, id: RoscaId): Option<V> {
    if id in m then Some(m[id]) else None
  }

  /** A circle's part of the event log. */
  function LogOf(events: seq<(RoscaId, Event)>, id: RoscaId): seq<Event> {
    if events == [] then []
    else
      var e := events[|events| - 1];
      LogOf(events[..|events| - 1], id) + if e.0 == id then [e.1] else []
  }

  lemma LogPush(events: seq<(RoscaId, Event)>, id: RoscaId, e: Event)
    ensures forall j :: LogOf(events + [(id, e)], j) == if j == id then LogOf(events, j) + [e] else LogOf(events, j)
  {
    assert (events + [(id, e)])[..|events|] == events;
  }

  /** What is stored under one id. */
  ghost function Slice(s: Store, id: RoscaId): Circle {
    Circle(
      Find(s.pendingDetails, id),
      Find(s.activeRoscas, id),
      id in s.completedRoscas,
      Get(s.participants, id, map[]),
      Get(s.invitedParticipants, id, {}),
      Find(s.participantsCount, id),
      Find(s.pendingOrder, id),
      Find(s.activeOrder, id),
      Find(s.eligibleClaimant, id),
      Find(s.nextPayBy, id),
      Find(s.finalPayBy, id),
      Get(s.currentContributors, id, {}),
      Get(s.contributionCount, id, 0),
      Get(s.securityDeposits, id, map[]),
      Get(s.defaultCount, id, map[]),
      LogOf(s.events, id))
  }

  /** Only circle `id` and the ledger differ. */
  ghost predicate Local(s: Store, s': Store, id: RoscaId) {
    && s'.nextRoscaId == s.nextRoscaId
    && forall j: RoscaId :: j != id ==> Slice(s', j) == Slice(s, j)
  }

  /** Circle `id` and the ledger are now as given; nothing else changed, compared with any earlier store. */
  ghost predicate Wrote(s: Store, s': Store, id: RoscaId, c: Circle, l: Ledger) {
    && Slice(s', id) == c && s'.ledger == l
    && Local(s, s', id)
    && forall s0: Store :: Local(s0, s, id) ==> Local(s0, s', id)
  }

  // ---------- writes to single storage items ----------

  function SetActive(s: Store, id: RoscaId, d: Details): (s': Store)
    ensures Wrote(s, s', id, Slice(s, id).(active := Some(d)), s.ledger)
  {
    s.(activeRoscas := s.activeRoscas[id := d])
  }

  function RemoveActive(s: Store, id: RoscaId): (s': Store)
    ensures Wrote(s, s', id, Slice(s, id).(active := None), s.ledger)
  {
    s.(activeRoscas := s.activeRoscas - {id})
  }

  function SetCompleted(s: Store, id: RoscaId): (s': Store)
    ensures Wrote(s, s', id, Slice(s, id).(completed := true), s.ledger)
  {
    s.(completedRoscas := s.completedRoscas + {id})
  }

  function SetPending(s: Store, id: RoscaId, d: Details): (s': Store)
    ensures Wrote(s, s', id, Slice(s, id).(pending := Some(d)), s.ledger)
  {
    s.(pendingDetails := s.pendingDetails[id := d])
  }

  function RemovePending(s: Store, id: RoscaId): (s': Store)
    ensures Wrote(s, s', id, Slice(s, id).(pending := None), s.ledger)
  {
    s.(pendingDetails := s.pendingDetails - {id})
  }

  function SetParticipants(s: Store, id: RoscaId, ps: map<Account, nat>): (s': Store)
    ensures Wrote(s, s', id, Slice(s, id).(participants := ps), s.ledger)
  {
    s.(participants := s.participants[id := ps])
  }

  function Invite(s: Store, id: RoscaId, a: Account): (s': Store)
    ensures Wrote(s, s', id, Slice(s, id).(invited := Slice(s, id).invited + {a}), s.ledger)
  {
    s.(invitedParticipants := s.invitedParticipants[id := Get(s.invitedParticipants, id, {}) + {a}])
  }

  function SetParticipantsCount(s: Store, id: RoscaId, n: u32): (s': Store)
    ensures Wrote(s, s', id, Slice(s, id).(participantCount := Some(n)), s.ledger)
  {
    s.(participantsCount := s.participantsCount[id := n])
  }

  function SetPendingOrder(s: Store, id: RoscaId, order: seq<Option<Account>>): (s': Store)
    ensures Wrote(s, s', id, Slice(s, id).(pendingOrder := Some(order)), s.ledger)
  {
    s.(pendingOrder := s.pendingOrder[id := order])
  }

  function SetActiveOrder(s: Store, id: RoscaId, order: seq<Account>): (s': Store)
    ensures Wrote(s, s', id, Slice(s, id).(order := Some(order)), s.ledger)
  {
    s.(activeOrder := s.activeOrder[id := order])
  }

  function SetClaimant(s: Store, id: RoscaId, a: Account): (s': Store)
    ensures Wrote(s, s', id, Slice(s, id).(claimant := Some(a)), s.ledger)
  {
    s.(eligibleClaimant := s.eligibleClaimant[id := a])
  }

  function SetNextPayBy(s: Store, id: RoscaId, t: u64): (s': Store)
    ensures Wrote(s, s', id, Slice(s, id).(nextPayBy := Some(t)), s.ledger)
  {
    s.(nextPayBy := s.nextPayBy[id := t])
  }

  function SetFinalPayBy(s: Store, id: RoscaId, t: u64): (s': Store)
    ensures Wrote(s, s', id, Slice(s, id).(finalPayBy := Some(t)), s.ledger)
  {
    s.(finalPayBy := s.finalPayBy[id := t])
  }

  function SetContributors(s: Store, id: RoscaId, cs: set<Account>): (s': Store)
    ensures Wrote(s, s', id, Slice(s, id).(contributors := cs), s.ledger)
  {
    s.(currentContributors := s.currentContributors[id := cs])
  }

  function SetContributionCount(s: Store, id: RoscaId, n: u32): (s': Store)
    ensures Wrote(s, s', id, Slice(s, id).(contributionCount := n), s.ledger)
  {
    s.(contributionCount := s.contributionCount[id := n])
  }

  function SetDeposits(s: Store, id: RoscaId, ds: map<Account, u32>): (s': Store)
    ensures Wrote(s, s', id, Slice(s, id).(deposits := ds), s.ledger)
  {
    s.(securityDeposits := s.securityDeposits[id := ds])
  }

  function Dock(s: Store, id: RoscaId, ds: map<Account, u32>, e: Event): (s': Store)
    ensures Wrote(s, s', id, Slice(s, id).(deposits := ds).Logged(e), s.ledger)
  {
    Emit(SetDeposits(s, id, ds), id, e)
  }

  /** The writes that open a round: whose turn it is, and no contributions. */
  function SetTurn(s: Store, id: RoscaId, a: Account, order: seq<Account>): (s': Store)
    ensures Wrote(s, s', id, Slice(s, id).(claimant := Some(a), order := Some(order)), s.ledger)
  {
    SetActiveOrder(SetClaimant(s, id, a), id, order)
  }

  function ClearRound(s: Store, id: RoscaId, limit: nat): (s': Store)
    ensures Wrote(s, s', id, Slice(s, id).(contributors := ClearPrefix(Slice(s, id).contributors, limit), contributionCount := 0), s.ledger)
  {
    SetContributionCount(SetContributors(s, id, ClearPrefix(Get(s.currentContributors, id, {}), limit)), id, 0)
  }

  function NoteContribution(s: Store, id: RoscaId, signer: Account, count: u32, e: Event): (s': Store)
    ensures Wrote(s, s', id, Slice(s, id).(contributors := Slice(s, id).contributors + {signer}, contributionCount := count,
                                           log := Slice(s, id).log + [e]), s.ledger)
  {
    Emit(SetContributionCount(SetContributors(s, id, Get(s.currentContributors, id, {}) + {signer}), id, count), id, e)
  }

  /** The writes that free a member's slot. */
  function Unseat(s: Store, id: RoscaId, ps: map<Account, nat>, order: seq<Option<Account>>, n: u32): (s': Store)
    ensures Wrote(s, s', id, Slice(s, id).(participants := ps, pendingOrder := Some(order), participantCount := Some(n)), s.ledger)
  {
    SetParticipantsCount(SetPendingOrder(SetParticipants(s, id, ps), id, order), id, n)
  }

  function SetDefaults(s: Store, id: RoscaId, ds: map<Account, u32>): (s': Store)
    ensures Wrote(s, s', id, Slice(s, id).(defaults := ds), s.ledger)
  {
    s.(defaultCount := s.defaultCount[id := ds])
  }

  function SetLedger(s: Store, id: RoscaId, l: Ledger): (s': Store)
    ensures Wrote(s, s', id, Slice(s, id), l)
  {
    s.(ledger := l)
  }

  function Emit(s: Store, id: RoscaId, e: Event): (s': Store)
    ensures Wrote(s, s', id, Slice(s, id).(log := Slice(s, id).log + [e]), s.ledger)
  {
    LogPush(s.events, id, e);
    s.(events := s.events + [(id, e)])
  }

  // Reading a storage item is reading the circle.

  lemma LookupPhase(s: Store, id: RoscaId)
    ensures var c := Slice(s, id);
            c.pending == Find(s.pendingDetails, id) && c.active == Find(s.activeRoscas, id) && c.completed == (id in s.completedRoscas)
  {
  }

  lemma LookupMembers(s: Store, id: RoscaId)
    ensures var c := Slice(s, id);
            && c.participants == Get(s.participants, id, map[]) && c.invited == Get(s.invitedParticipants, id, {})
            && c.participantCount == Find(s.participantsCount, id) && c.pendingOrder == Find(s.pendingOrder, id)
  {
  }

  lemma LookupRota(s: Store, id: RoscaId)
    ensures var c := Slice(s, id);
            && c.order == Find(s.activeOrder, id) && c.claimant == Find(s.eligibleClaimant, id)
            && c.nextPayBy == Find(s.nextPayBy, id) && c.finalPayBy == Find(s.finalPayBy, id)
  {
  }

  lemma LookupRound(s: Store, id: RoscaId)
    ensures var c := Slice(s, id);
            c.contributors == Get(s.currentContributors, id, {}) && c.contributionCount == Get(s.contributionCount, id, 0)
  {
  }

  lemma LookupMoney(s: Store, id: RoscaId)
    ensures var c := Slice(s, id);
            c.deposits == Get(s.securityDeposits, id, map[]) && c.defaults == Get(s.defaultCount, id, map[])
  {
  }

  lemma LocalSelf(s: Store, id: RoscaId)
    ensures Wrote(s, s, id, Slice(s, id), s.ledger)
  {
  }

  /** The counter and the ledger are no part of any circle. */
  lemma OutsideSlices(s: Store, n: RoscaId, l: Ledger)
    ensures forall j: RoscaId :: Slice(s.(nextRoscaId := n, ledger := l), j) == Slice(s, j)
  {
  }
}
