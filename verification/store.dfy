/** The database as an in-memory store: the user and ticket tables, each
    a map from id to row plus the order in which rows were inserted.
    Listing rows in insertion order when no `orderBy` is given is a
    choice of this model; the database itself promises no order then. */
module Store {
  import opened Wrappers
  import opened Domain

  predicate Distinct<T(==)>(s: seq<T>) {
    forall i, j | 0 <= i < j < |s| :: s[i] != s[j]
  }

  /** No two stored users share an e-mail address. */
  predicate UniqueEmails(users: map<string, User>) {
    forall a, b | a in users && b in users && users[a].email == users[b].email :: a == b
  }

  /** The rows of `m` listed in the order `order` gives. */
  function RowsOf<V>(order: seq<string>, m: map<string, V>): (r: seq<V>)
    requires forall k | k in order :: k in m
    ensures |r| == |order|
    ensures forall i | 0 <= i < |order| :: r[i] == m[order[i]]
  {
    seq(|order|, i requires 0 <= i < |order| => m[order[i]])
  }

  lemma RowsCover<V>(order: seq<string>, m: map<string, V>)
    requires forall k | k in order :: k in m
    requires forall k | k in m :: k in order
    ensures forall k | k in m :: m[k] in RowsOf(order, m)
  {
    var r := RowsOf(order, m);
    forall k | k in m ensures m[k] in r {
      var i :| 0 <= i < |order| && order[i] == k;
      assert r[i] == m[k];
    }
  }

  class Db {
    var users: map<string, User>
    var userOrder: seq<string>
    var tickets: map<string, Ticket>
    var ticketOrder: seq<string>

    ghost predicate Valid()
      reads this
    {
      && (forall k | k in users :: users[k].id == k)
      && (forall k | k in tickets :: tickets[k].id == k)
      && Distinct(userOrder) && (forall k | k in userOrder :: k in users) && (forall k | k in users :: k in userOrder)
      && Distinct(ticketOrder) && (forall k | k in ticketOrder :: k in tickets) && (forall k | k in tickets :: k in ticketOrder)
      && UniqueEmails(users)
      && (forall k | k in tickets :: tickets[k].coordinatorId in users)
      && (forall k | k in tickets :: tickets[k].technicianId.Some? ==> tickets[k].technicianId.value in users)
    }

    constructor ()
      ensures Valid()
      ensures users == map[] && tickets == map[] && userOrder == [] && ticketOrder == []
    {
      users, userOrder, tickets, ticketOrder := map[], [], map[], [];
    }

    /** Every ticket row, in insertion order. */
    function AllTickets(): (r: seq<Ticket>)
      reads this
      requires Valid()
      ensures |r| == |ticketOrder|
      ensures forall t | t in r :: t.id in tickets && tickets[t.id] == t
      ensures forall k | k in tickets :: tickets[k] in r
    {
      RowsCover(ticketOrder, tickets);
      RowsOf(ticketOrder, tickets)
    }

    /** Every user row, in insertion order. */
    function AllUsers(): (r: seq<User>)
      reads this
      requires Valid()
      ensures |r| == |userOrder|
      ensures forall u | u in r :: u.id in users && users[u.id] == u
      ensures forall k | k in users :: users[k] in r
    {
      RowsCover(userOrder, users);
      RowsOf(userOrder, users)
    }

    /** `findUnique({ where: { email } })`. */
    function UserByEmail(email: string): (r: Option<User>)
      reads this
      requires Valid()
      ensures r.Some? <==> exists k | k in users :: users[k].email == email
      ensures r.Some? ==> r.value.id in users && users[r.value.id] == r.value && r.value.email == email
    {
      if exists k | k in users :: users[k].email == email then
        var k :| k in users && users[k].email == email;
        Some(users[k])
      else None
    }

    method InsertUser(u: User)
      requires Valid()
      requires u.id !in users
      requires forall k | k in users :: users[k].email != u.email
      modifies this
      ensures Valid()
      ensures users == old(users)[u.id := u] && userOrder == old(userOrder) + [u.id]
      ensures tickets == old(tickets) && ticketOrder == old(ticketOrder)
    {
      users := users[u.id := u];
      userOrder := userOrder + [u.id];
    }

    /** Rewrite a stored user; the e-mail is kept, so it stays unique. */
    method PutUser(u: User)
      requires Valid()
      requires u.id in users && users[u.id].email == u.email
      modifies this
      ensures Valid()
      ensures users == old(users)[u.id := u] && userOrder == old(userOrder)
      ensures tickets == old(tickets) && ticketOrder == old(ticketOrder)
    {
      users := users[u.id := u];
    }

    method InsertTicket(t: Ticket)
      requires Valid()
      requires t.id !in tickets
      requires t.coordinatorId in users
      requires t.technicianId.Some? ==> t.technicianId.value in users
      modifies this
      ensures Valid()
      ensures tickets == old(tickets)[t.id := t] && ticketOrder == old(ticketOrder) + [t.id]
      ensures users == old(users) && userOrder == old(userOrder)
    {
      tickets := tickets[t.id := t];
      ticketOrder := ticketOrder + [t.id];
    }

    method PutTicket(t: Ticket)
      requires Valid()
      requires t.id in tickets
      requires t.coordinatorId in users
      requires t.technicianId.Some? ==> t.technicianId.value in users
      modifies this
      ensures Valid()
      ensures tickets == old(tickets)[t.id := t] && ticketOrder == old(ticketOrder)
      ensures users == old(users) && userOrder == old(userOrder)
    {
      tickets := tickets[t.id := t];
    }
  }
}
