/** The pallet and the indexer together. */
module Ends {
  import opened Prelude
  import opened Storage
  import opened Stores
  import opened Journal
  import opened Chronicle
  import opened Projection
  import opened Mirror
  import opened Circles
  import opened Drift
  import opened Entities
  import opened Runs
  import opened Theorems
  import opened IndexerTheorems
  import opened Pallet
  import opened Indexer

  /** Whatever a pallet has been through, its events are in order, circle by circle. */
  lemma EventsInOrder(p: RoscaPallet, id: RoscaId)
    requires p.Valid() && Created(p.start, p.history) <= IDS
    ensures Orderly(LogOf(p.store.events, id))
    ensures LogOf(p.store.events, id) == p.State().At(id).log
  {
    hide Well, EntityAgrees, LogOf, Run, Genesis;
    ReachedSound(p.start, p.history, p.State());
    assert p.State().At(id) == Slice(p.store, id);
    if p.State().Has(id) {
      assert Mirrored(p.State().At(id));
    }
  }

  /** The entities of a circle agree with its storage and its log: members, newest first; recipient, round number and
      completion; terms, creator, guests and starter; the sum of the cutoffs; and the lists of every round, in order. */
  ghost predicate Follows(i: Index, c: Circle) {
    var rs, k := Published(c.log), Tally(c.log, RoundStarts);
    && EntityAgrees(i, c, k) && ShowsRound(i.rosca.value, c, rs) && RoundsAgree(c.log, i.rounds, rs)
    && FieldsAgree(i.rosca.value, c) && CutoffAgrees(i.rosca.value, c, rs, k, Terms(c).frequency)
    && NewestFirst(c.log, i.rosca.value.active)
    && forall j :: j in i.rounds ==> Chronological(c.log, i.rounds[j])
  }

  lemma ProjectionFollows(w0: World, ms: seq<Move>, w: World, id: RoscaId)
    requires Reached(w0, ms, w) && w.Has(id)
    ensures Follows(Project(w.At(id).log), w.At(id))
    ensures Project(w.At(id).log).rosca.value.startedBy == Starter(w0, ms, id)
    ensures Some(Project(w.At(id).log).rosca.value.creator) == Creator(w0, ms, id)
  {
    hide Well, Orderly, Project, ShowsRound, RoundAgrees, Tally, Published, FieldsAgree, CutoffAgrees, NewestFirst, Chronological, Created;
    var c := w.At(id);
    ReachedSound(w0, ms, w);
    assert Mirrored(c);
    IndexerAgrees(w0, ms, w, id);
    EntityFields(w0, ms, w, id);
    ShownCutoffIff(w0, ms, w, id);
    ActiveNewestFirst(c.log);
    forall j | j in Project(c.log).rounds ensures Chronological(c.log, Project(c.log).rounds[j]) {
      ListsChronological(c.log, j);
    }
  }

  /** An indexer that handles all events of a pallet ends up with entities that follow the pallet's storage, for every
      circle, and that name the signers of its creation and its start. */
  method Follow(p: RoscaPallet, times: seq<u64>) returns (ix: EventIndexer)
    requires p.Valid() && Created(p.start, p.history) <= IDS && |times| == |p.store.events|
    ensures fresh(ix)
    ensures forall id: RoscaId :: p.State().Has(id) ==>
              && Follows(ix.At(id), Slice(p.store, id))
              && ix.At(id).rosca.value.startedBy == Starter(p.start, p.history, id)
              && Some(ix.At(id).rosca.value.creator) == Creator(p.start, p.history, id)
  {
    hide Orderly, Project, Follows, Starter, Creator, Created, LogOf, Slice;
    ix := new EventIndexer();
    forall id: RoscaId ensures Orderly(LogOf(p.store.events, id)) && LogOf(p.store.events, id) == Slice(p.store, id).log {
      EventsInOrder(p, id);
      assert p.State().At(id) == Slice(p.store, id);
    }
    ghost var w := p.State();
    ix.Process(p.store.events, times);
    forall id: RoscaId | w.Has(id)
      ensures Follows(ix.At(id), Slice(p.store, id)) && ix.At(id).rosca.Some?
              && ix.At(id).rosca.value.startedBy == Starter(p.start, p.history, id)
              && Some(ix.At(id).rosca.value.creator) == Creator(p.start, p.history, id)
    {
      ProjectionFollows(p.start, p.history, w, id);
      HasEntity(Project(w.At(id).log), w.At(id));
      assert w.At(id) == Slice(p.store, id);
    }
  }

  lemma HasEntity(i: Index, c: Circle)
    requires Follows(i, c)
    ensures i.rosca.Some?
  {
  }
}
