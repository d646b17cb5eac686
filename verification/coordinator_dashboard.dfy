/** The coordinator's dashboard: counts over the coordinator's tickets,
    the five newest, the technicians working on them (each once, in order
    of first appearance) and each technician's in-progress tickets.
    `fetchStats` sorts the fetched array in place, and the page keeps that
    same array as `allTickets`, so the per-technician lists see the sorted
    order too. */
module CoordinatorDashboard {
  import opened Wrappers
  import opened ClientRows
  import Seqs

  datatype Stats = Stats(openTickets: nat, inProgressTickets: nat, highPriorityTickets: nat)

  predicate IsOpen(t: TicketRow) { t.status == "OPEN" }
  predicate IsInProgress(t: TicketRow) { t.status == "IN_PROGRESS" }
  predicate IsHigh(t: TicketRow) { t.priority == Some("HIGH") }

  function StatsOf(ts: seq<TicketRow>): (s: Stats)
    ensures s.openTickets + s.inProgressTickets <= |ts| && s.highPriorityTickets <= |ts|
    ensures s.openTickets == |Seqs.Filter(ts, IsOpen)|
    ensures s.inProgressTickets == |Seqs.Filter(ts, IsInProgress)|
    ensures s.highPriorityTickets == |Seqs.Filter(ts, IsHigh)|
  {
    Seqs.CountDisjoint3(ts, IsOpen, IsInProgress, _ => false);
    Stats(Seqs.Count(ts, IsOpen), Seqs.Count(ts, IsInProgress), Seqs.Count(ts, IsHigh))
  }

  /** A ticket carrying a technician with a (truthy) id. */
  predicate HasTech(t: TicketRow) {
    t.technician.Some? && t.technician.value.id != ""
  }

  function Ids(ps: seq<Person>): set<string> {
    set p | p in ps :: p.id
  }

  predicate DistinctIds(ps: seq<Person>) {
    forall k1, k2 | 0 <= k1 < k2 < |ps| :: ps[k1].id != ps[k2].id
  }

  /** `p` is the technician of the ticket at index `i`. */
  predicate TechAt(ts: seq<TicketRow>, i: int, p: Person) {
    0 <= i < |ts| && HasTech(ts[i]) && ts[i].technician.value == p
  }

  /** `p` is the technician of some ticket. */
  predicate Sourced(ts: seq<TicketRow>, p: Person) {
    exists i | 0 <= i < |ts| :: TechAt(ts, i, p)
  }

  /** Some ticket before index `bound` has a technician with this id. */
  predicate IdBefore(ts: seq<TicketRow>, bound: int, id: string) {
    exists i | 0 <= i < bound && i < |ts| :: HasTech(ts[i]) && ts[i].technician.value.id == id
  }

  /** The technicians the loop collects from `ts`: a ticket's technician
      is added when its id has not been seen yet. */
  function Techs(ts: seq<TicketRow>): (r: seq<Person>)
    decreases |ts|
  {
    if ts == [] then []
    else
      var prev := Techs(ts[..|ts| - 1]);
      var t := ts[|ts| - 1];
      if HasTech(t) && t.technician.value.id !in Ids(prev) then prev + [t.technician.value] else prev
  }

  /** Each collected technician id appears once. */
  lemma {:induction false} TechsDistinct(ts: seq<TicketRow>)
    ensures DistinctIds(Techs(ts))
  {
    if ts != [] {
      var init := ts[..|ts| - 1];
      var t := ts[|ts| - 1];
      TechsDistinct(init);
      var prev := Techs(init);
      if HasTech(t) && t.technician.value.id !in Ids(prev) {
        var r := prev + [t.technician.value];
        assert Techs(ts) == r;
        forall k1, k2 | 0 <= k1 < k2 < |r| ensures r[k1].id != r[k2].id {
          assert r[k1] == prev[k1] && prev[k1] in prev;
          if k2 < |prev| {
            assert r[k2] == prev[k2];
          }
        }
      } else {
        assert Techs(ts) == prev;
      }
    }
  }

  /** Each collected technician is the technician of some ticket. */
  lemma {:induction false} TechsSound(ts: seq<TicketRow>)
    ensures forall p | p in Techs(ts) :: Sourced(ts, p)
  {
    if ts != [] {
      var init := ts[..|ts| - 1];
      var t := ts[|ts| - 1];
      TechsSound(init);
      var prev := Techs(init);
      var r := Techs(ts);
      var added := HasTech(t) && t.technician.value.id !in Ids(prev);
      assert r == if added then prev + [t.technician.value] else prev;
      forall p | p in r ensures Sourced(ts, p) {
        if p in prev {
          var i :| 0 <= i < |init| && TechAt(init, i, p);
          assert ts[i] == init[i];
          assert TechAt(ts, i, p);
        } else {
          assert TechAt(ts, |init|, p);
        }
      }
    } else {
      assert Techs(ts) == [];
    }
  }

  /** Every ticket's technician id is among the collected ones. */
  lemma {:induction false} TechsCover(ts: seq<TicketRow>)
    ensures forall i | 0 <= i < |ts| && HasTech(ts[i]) :: ts[i].technician.value.id in Ids(Techs(ts))
  {
    if ts != [] {
      var init := ts[..|ts| - 1];
      TechsCover(init);
      var prev := Techs(init);
      assert Ids(prev) <= Ids(Techs(ts));
      forall i | 0 <= i < |ts| && HasTech(ts[i]) ensures ts[i].technician.value.id in Ids(Techs(ts)) {
        if i < |init| {
          assert ts[i] == init[i];
        }
      }
    }
  }

  lemma IdBeforeExtend(init: seq<TicketRow>, t: TicketRow, bound: int, bound': int, id: string)
    requires IdBefore(init, bound, id) && bound <= bound'
    ensures IdBefore(init + [t], bound', id)
  {
    var i :| 0 <= i < bound && i < |init| && HasTech(init[i]) && init[i].technician.value.id == id;
    assert (init + [t])[i] == init[i];
  }

  lemma SourcedBefore(init: seq<TicketRow>, t: TicketRow, p: Person)
    requires Sourced(init, p)
    ensures IdBefore(init + [t], |init|, p.id)
  {
    var i :| 0 <= i < |init| && TechAt(init, i, p);
    assert (init + [t])[i] == init[i];
  }

  /** Entries come in the order their ids first appear: wherever a later
      entry's id occurs, an earlier entry's id has occurred before it. */
  lemma {:induction false} TechsOrder(ts: seq<TicketRow>)
    ensures forall k1, k2, i2 | 0 <= k1 < k2 < |Techs(ts)| && 0 <= i2 < |ts| && HasTech(ts[i2])
          && ts[i2].technician.value.id == Techs(ts)[k2].id ::
        IdBefore(ts, i2, Techs(ts)[k1].id)
  {
    if ts != [] {
      var init := ts[..|ts| - 1];
      var t := ts[|ts| - 1];
      assert ts == init + [t];
      TechsOrder(init);
      TechsSound(init);
      TechsCover(init);
      var prev := Techs(init);
      var r := Techs(ts);
      var added := HasTech(t) && t.technician.value.id !in Ids(prev);
      assert r == if added then prev + [t.technician.value] else prev;
      forall k1, k2, i2 | 0 <= k1 < k2 < |r| && 0 <= i2 < |ts| && HasTech(ts[i2]) && ts[i2].technician.value.id == r[k2].id
        ensures IdBefore(ts, i2, r[k1].id)
      {
        assert r[k1] == prev[k1] && prev[k1] in prev;
        if k2 == |prev| {
          if i2 < |init| {
            assert false;
          }
          SourcedBefore(init, t, prev[k1]);
        } else if i2 == |init| {
          assert r[k2] == prev[k2] && prev[k2] in prev;
          var i' :| 0 <= i' < |init| && TechAt(init, i', prev[k2]);
          IdBeforeExtend(init, t, i', i2, prev[k1].id);
        } else {
          assert r[k2] == prev[k2];
          assert ts[i2] == init[i2];
          IdBeforeExtend(init, t, i2, i2, prev[k1].id);
        }
      }
    }
  }

  /** The `forEach` loop with its `seen` set. */
  method UniqueTechnicians(tickets: seq<TicketRow>) returns (techs: seq<Person>)
    ensures techs == Techs(tickets)
  {
    techs := [];
    var seen: set<string> := {};
    var i := 0;
    while i < |tickets|
      invariant 0 <= i <= |tickets|
      invariant techs == Techs(tickets[..i])
      invariant seen == Ids(techs)
    {
      var t := tickets[i];
      assert tickets[..i + 1][..i] == tickets[..i];
      if t.technician.Some? && t.technician.value.id != "" && t.technician.value.id !in seen {
        techs := techs + [t.technician.value];
        seen := seen + {t.technician.value.id};
      }
      i := i + 1;
    }
    assert tickets[..|tickets|] == tickets;
  }

  /** The in-progress tickets listed under a technician's card. */
  function AssignedInProgress(all: seq<TicketRow>, techId: string): (r: seq<TicketRow>)
    ensures forall t | t in r :: t in all && t.technician.Some? && t.technician.value.id == techId && t.status == "IN_PROGRESS"
    ensures forall t | t in all && t.technician.Some? && t.technician.value.id == techId && t.status == "IN_PROGRESS" :: t in r
  {
    Seqs.Filter(all, (t: TicketRow) => t.technician.Some? && t.technician.value.id == techId && t.status == "IN_PROGRESS")
  }

  /** The card shows at most the first two of them. */
  function CardTickets(all: seq<TicketRow>, techId: string): (r: seq<TicketRow>)
    ensures |r| <= 2
    ensures r <= AssignedInProgress(all, techId)
    ensures |AssignedInProgress(all, techId)| <= 2 ==> r == AssignedInProgress(all, techId)
    ensures |AssignedInProgress(all, techId)| > 2 ==> r == AssignedInProgress(all, techId)[..2]
  {
    var full := AssignedInProgress(all, techId);
    if |full| <= 2 then full else full[..2]
  }

  /** The first `n` rows of a newest-first list are at least as new as
      every row after them. */
  lemma NewestFirstPrefix(s: seq<TicketRow>, n: nat)
    requires Seqs.SortedDesc(s, CreatedAt) && n <= |s|
    ensures forall r, t | r in s[..n] && t in s[n..] :: r.createdAt >= t.createdAt
  {
    forall r, t | r in s[..n] && t in s[n..] ensures r.createdAt >= t.createdAt {
      var i :| 0 <= i < n && s[..n][i] == r;
      var j :| 0 <= j < |s| - n && s[n..][j] == t;
      assert s[i] == r && s[n + j] == t;
    }
  }

  class Dashboard {
    var stats: Stats
    var recentTickets: seq<TicketRow>
    var technicians: seq<Person>
    var allTickets: array<TicketRow>
    var loading: bool
    var modalOpen: bool
    var modalTickets: seq<TicketRow>
    var modalTech: Option<Person>

    constructor ()
      ensures stats == Stats(0, 0, 0) && recentTickets == [] && technicians == [] && allTickets.Length == 0
      ensures loading && !modalOpen && modalTickets == [] && modalTech.None?
    {
      stats := Stats(0, 0, 0);
      recentTickets, technicians := [], [];
      allTickets := new TicketRow[0];
      loading, modalOpen, modalTickets, modalTech := true, false, [], None;
    }

    /** `fetchStats` with the answer of `GET /tickets/coordinator-tickets`. */
    method FetchStats(response: Fetch<seq<TicketRow>>)
      modifies this
      ensures !loading
      ensures modalOpen == old(modalOpen) && modalTickets == old(modalTickets) && modalTech == old(modalTech)
      ensures response.Failed? ==>
        stats == Stats(0, 0, 0) && recentTickets == [] && technicians == [] && allTickets[..] == []
      ensures response.Fetched? ==>
        var ts := response.value.GetOr([]);
        && stats == StatsOf(ts)
        && multiset(allTickets[..]) == multiset(ts)
        && Seqs.SortedDesc(allTickets[..], CreatedAt)
        && recentTickets == allTickets[..if allTickets.Length < 5 then allTickets.Length else 5]
        && technicians == Techs(allTickets[..])
    {
      loading := true;
      if response.Failed? {
        stats := Stats(0, 0, 0);
        recentTickets, technicians := [], [];
        allTickets := new TicketRow[0];
        loading := false;
        return;
      }
      var ts := response.value.GetOr([]);
      var a := new TicketRow[|ts|](i requires 0 <= i < |ts| => ts[i]);
      assert a[..] == ts;
      allTickets := a;
      stats := StatsOf(ts);
      ClientRows.SortNewestFirst(a);
      recentTickets := a[..if a.Length < 5 then a.Length else 5];
      technicians := UniqueTechnicians(a[..]);
      loading := false;
    }

    /** "+View all assigned tickets" on a technician's card. */
    method ViewAll(tech: Person)
      modifies this
      ensures modalOpen && modalTech == Some(tech)
      ensures modalTickets == AssignedInProgress(allTickets[..], tech.id)
      ensures stats == old(stats) && recentTickets == old(recentTickets) && technicians == old(technicians)
      ensures allTickets == old(allTickets) && loading == old(loading)
    {
      modalOpen := true;
      modalTickets := AssignedInProgress(allTickets[..], tech.id);
      modalTech := Some(tech);
    }

    /** Closing the modal hides it; its tickets and technician stay. */
    method CloseModal()
      modifies this
      ensures !modalOpen
      ensures modalTickets == old(modalTickets) && modalTech == old(modalTech)
      ensures stats == old(stats) && recentTickets == old(recentTickets) && technicians == old(technicians)
      ensures allTickets == old(allTickets) && loading == old(loading)
    {
      modalOpen := false;
    }
  }
}
