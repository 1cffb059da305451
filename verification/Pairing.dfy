/**
 Pairing: the user store (user_store.py) and the `POST /api` handler with its link button (hue_api.py), and
 what a client that fires a burst of requests can rely on.
 */
module Pairing {
  import opened Prelude
  import opened Constants

  // ---- the store ----

  datatype User = User(name: string, key: string, device: string)

  /** The dictionary of users in insertion order: one entry per name; adding a known name replaces its entry. */
  function Added(users: seq<User>, user: User): (r: seq<User>)
    ensures user in r
    ensures forall u <- r :: u == user || u in users
    ensures forall u <- users :: u in r || u.name == user.name
  {
    if users == [] then [user]
    else if users[0].name == user.name then [user] + users[1..]
    else [users[0]] + Added(users[1..], user)
  }

  predicate DistinctNames(users: seq<User>) {
    forall i, j | 0 <= i < j < |users| :: users[i].name != users[j].name
  }

  lemma {:induction false} AddedNew(users: seq<User>, user: User)
    requires forall u <- users :: u.name != user.name
    ensures Added(users, user) == users + [user]
  {
    if users != [] {
      AddedNew(users[1..], user);
    }
  }

  /** A known name keeps its place, and so does everyone else. */
  lemma {:induction false} AddedInPlace(users: seq<User>, user: User, k: nat)
    requires k < |users| && users[k].name == user.name && forall i | 0 <= i < k :: users[i].name != user.name
    ensures Added(users, user) == users[..k] + [user] + users[k + 1..]
  {
    if k > 0 {
      AddedInPlace(users[1..], user, k - 1);
      assert [users[0]] + (users[1..][..k - 1] + [user] + users[1..][k..]) == users[..k] + [user] + users[k + 1..];
    } else {
      assert users[..0] + [user] + users[1..] == [user] + users[1..];
    }
  }

  lemma {:induction false} AddedKeepsNames(users: seq<User>, user: User)
    requires DistinctNames(users)
    ensures DistinctNames(Added(users, user))
  {
    if users != [] && users[0].name != user.name {
      AddedKeepsNames(users[1..], user);
      var rest := Added(users[1..], user);
      forall j | 0 <= j < |rest|
        ensures rest[j].name != users[0].name
      {
        assert rest[j] in rest;
      }
    }
  }

  /** The most recently added user of a device. */
  function Latest(users: seq<User>, device: string): (r: Option<User>)
    ensures r.Some? ==> r.value in users && r.value.device == device
    ensures r.None? ==> forall u <- users :: u.device != device
  {
    if users == [] then None
    else
      var last := |users| - 1;
      if users[last].device == device then Some(users[last]) else Latest(users[..last], device)
  }

  /** It is the last of the device's users. */
  lemma {:induction false} LatestIsLast(users: seq<User>, device: string) returns (k: nat)
    requires Latest(users, device).Some?
    ensures k < |users| && users[k] == Latest(users, device).value
    ensures forall i | k < i < |users| :: users[i].device != device
  {
    var last := |users| - 1;
    if users[last].device == device {
      k := last;
    } else {
      k := LatestIsLast(users[..last], device);
    }
  }

  function KeyOf(users: seq<User>, name: string): Option<string> {
    if users == [] then None
    else if users[0].name == name then Some(users[0].key)
    else KeyOf(users[1..], name)
  }

  /** Looking a key up after adding a user finds the user added, and everyone else as before. */
  lemma {:induction false} KeyOfAdded(users: seq<User>, user: User, name: string)
    ensures KeyOf(Added(users, user), name) == if name == user.name then Some(user.key) else KeyOf(users, name)
  {
    if users != [] && users[0].name != user.name {
      KeyOfAdded(users[1..], user, name);
    }
  }

  class UserStore {
    var users: seq<User>

    ghost predicate Valid()
      reads this
    {
      DistinctNames(users)
    }

    constructor ()
      ensures Valid() && users == []
    {
      users := [];
    }

    method Add(name: string, key: string, device: string)
      requires Valid()
      modifies this
      ensures Valid() && users == Added(old(users), User(name, key, device))
    {
      AddedKeepsNames(users, User(name, key, device));
      users := Added(users, User(name, key, device));
    }

    method GetPsk(name: string) returns (key: Option<string>)
      requires Valid()
      ensures key == KeyOf(users, name)
    {
      for n := 0 to |users|
        invariant KeyOf(users[n..], name) == KeyOf(users, name)
      {
        assert users[n..][1..] == users[n + 1..];
        if users[n].name == name {
          return Some(users[n].key);
        }
      }
      key := None;
    }

    method GetByDevicetype(device: string) returns (user: Option<User>)
      requires Valid()
      ensures user == Latest(users, device)
    {
      var n := |users|;
      assert users[..n] == users;
      while n > 0
        invariant 0 <= n <= |users|
        invariant Latest(users[..n], device) == Latest(users, device)
      {
        n := n - 1;
        assert users[..n + 1][..n] == users[..n];
        if users[n].device == device {
          return Some(users[n]);
        }
      }
      user := None;
    }
  }

  // ---- the handler ----

  datatype Reply = NotPressed | Paired(name: string, key: string)

  /**
   A pairing request up to its reply, or up to the point where it waits for the store to be saved.
   `newcomer` is the user the handler would create.
   */
  function Requested(users: seq<User>, open: bool, newcomer: User): (seq<User>, Reply) {
    if !open then (users, NotPressed)
    else
      match Latest(users, newcomer.device)
      case Some(u) => (users, Paired(u.name, u.key))
      case None => (Added(users, newcomer), Paired(newcomer.name, newcomer.key))
  }

  class HueApiServer {
    const store: UserStore
    var linkButtonExpires: int

    constructor (store: UserStore)
      ensures this.store == store && linkButtonExpires == 0
    {
      this.store := store;
      linkButtonExpires := 0;
    }

    predicate LinkButtonActive(now: int)
      reads this
    {
      now < linkButtonExpires
    }

    method SetLinkButton(active: bool, now: int)
      modifies this
      ensures forall t | t >= now ::
        LinkButtonActive(t) <==> (if active then t < now + LINK_BUTTON_TIMEOUT else t < 0)
    {
      linkButtonExpires := if active then now + LINK_BUTTON_TIMEOUT else 0;
    }

    /** `name` and `key` are the random credentials the handler draws if it needs them. */
    method HandleCreateUser(device: string, name: string, key: string, now: int) returns (reply: Reply)
      requires store.Valid()
      modifies store
      ensures store.Valid()
      ensures (store.users, reply) == Requested(old(store.users), LinkButtonActive(now), User(name, key, device))
      ensures reply.NotPressed? <==> now >= linkButtonExpires
      ensures reply.NotPressed? ==> store.users == old(store.users)
      ensures reply.Paired? ==>
                match Latest(old(store.users), device)
                case Some(u) => reply == Paired(u.name, u.key) && store.users == old(store.users)
                case None => reply == Paired(name, key) && KeyOf(store.users, name) == Some(key)
    {
      if !LinkButtonActive(now) {
        return NotPressed;
      }
      var existing := store.GetByDevicetype(device);
      if existing.Some? {
        return Paired(existing.value.name, existing.value.key);
      }
      KeyOfAdded(store.users, User(name, key, device), name);
      store.Add(name, key, device);
      reply := Paired(name, key);
    }
  }

  /** Inside the window a request always succeeds, with the device's latest credentials or else the new ones. */
  lemma WindowDecides(users: seq<User>, open: bool, newcomer: User)
    ensures var (after, reply) := Requested(users, open, newcomer);
      && (reply.NotPressed? <==> !open)
      && (!open ==> after == users)
      && (open && Latest(users, newcomer.device).Some? ==>
            var u := Latest(users, newcomer.device).value;
            reply == Paired(u.name, u.key) && after == users)
      && (open && Latest(users, newcomer.device).None? ==>
            reply == Paired(newcomer.name, newcomer.key) && KeyOf(after, newcomer.name) == Some(newcomer.key))
  {
    KeyOfAdded(users, newcomer, newcomer.name);
  }

  // ---- every interleaving of requests ----

  datatype Answer = Answer(device: string, name: string, key: string)

  /** `saving` are the requests waiting for the store to be saved, with the reply they will give. */
  datatype Desk = Desk(users: seq<User>, expires: int, now: int, saving: seq<Answer>, answers: seq<Answer>)

  datatype Action =
    | Press(active: bool)
    | Request(newcomer: User)
    | Saved(k: nat)
    | Wait(d: nat)

  /** Generated user names are new; that is all that is asked of them. */
  predicate Allowed(d: Desk, a: Action) {
    match a
    case Request(newcomer) => forall u <- d.users :: u.name != newcomer.name
    case Saved(k) => k < |d.saving|
    case _ => true
  }

  function Act(d: Desk, a: Action): Desk
    requires Allowed(d, a)
  {
    match a
    case Press(active) => d.(expires := if active then d.now + LINK_BUTTON_TIMEOUT else 0)
    case Wait(t) => d.(now := d.now + t)
    case Saved(k) => d.(saving := d.saving[..k] + d.saving[k + 1..], answers := d.answers + [d.saving[k]])
    case Request(newcomer) =>
      var (users, reply) := Requested(d.users, d.now < d.expires, newcomer);
      if reply.NotPressed? then d
      else
        var answer := Answer(newcomer.device, reply.name, reply.key);
        if users == d.users then d.(answers := d.answers + [answer])
        else d.(users := users, saving := d.saving + [answer])
  }

  predicate Possible(d: Desk, actions: seq<Action>)
    decreases |actions|
  {
    actions != [] ==> Allowed(d, actions[0]) && Possible(Act(d, actions[0]), actions[1..])
  }

  function Outcome(d: Desk, actions: seq<Action>): Desk
    requires Possible(d, actions)
    decreases |actions|
  {
    if actions == [] then d else Outcome(Act(d, actions[0]), actions[1..])
  }

  predicate AreLatest(users: seq<User>, answers: seq<Answer>) {
    forall i | 0 <= i < |answers| ::
      Latest(users, answers[i].device) == Some(User(answers[i].name, answers[i].key, answers[i].device))
  }

  /** Every reply, given or still to be given, is the latest user of its device. */
  predicate Consistent(d: Desk) {
    DistinctNames(d.users) && AreLatest(d.users, d.saving) && AreLatest(d.users, d.answers)
  }

  lemma LatestAfterAdding(users: seq<User>, newcomer: User, device: string)
    requires forall u <- users :: u.name != newcomer.name
    ensures Added(users, newcomer) == users + [newcomer]
    ensures Latest(Added(users, newcomer), device)
         == if device == newcomer.device then Some(newcomer) else Latest(users, device)
  {
    AddedNew(users, newcomer);
    assert (users + [newcomer])[..|users|] == users;
  }

  /** A user is added only for a device that has none, so no reply loses its place. */
  lemma AddingKeepsLatest(users: seq<User>, newcomer: User, answers: seq<Answer>)
    requires forall u <- users :: u.name != newcomer.name
    requires Latest(users, newcomer.device).None? && AreLatest(users, answers)
    ensures AreLatest(Added(users, newcomer), answers)
  {
    forall i | 0 <= i < |answers|
      ensures Latest(Added(users, newcomer), answers[i].device) == Latest(users, answers[i].device)
    {
      LatestAfterAdding(users, newcomer, answers[i].device);
    }
  }

  lemma AnsweringKeepsLatest(users: seq<User>, answers: seq<Answer>, u: User)
    requires AreLatest(users, answers) && Latest(users, u.device) == Some(u)
    ensures AreLatest(users, answers + [Answer(u.device, u.name, u.key)])
  {
  }

  lemma RequestKeeps(d: Desk, newcomer: User)
    requires Consistent(d) && Allowed(d, Request(newcomer))
    ensures Consistent(Act(d, Request(newcomer)))
    ensures d.users <= Act(d, Request(newcomer)).users
  {
    if d.now < d.expires {
      var known := Latest(d.users, newcomer.device);
      if known.Some? {
        AnsweringKeepsLatest(d.users, d.answers, known.value);
      } else {
        LatestAfterAdding(d.users, newcomer, newcomer.device);
        AddedKeepsNames(d.users, newcomer);
        AddingKeepsLatest(d.users, newcomer, d.saving);
        AddingKeepsLatest(d.users, newcomer, d.answers);
        AnsweringKeepsLatest(Added(d.users, newcomer), d.saving, newcomer);
      }
    }
  }

  lemma ActKeeps(d: Desk, a: Action)
    requires Consistent(d) && Allowed(d, a)
    ensures Consistent(Act(d, a))
    ensures d.users <= Act(d, a).users
    ensures Act(d, a).users != d.users ==> a.Request? && d.now < d.expires
  {
    if a.Request? {
      RequestKeeps(d, a.newcomer);
    }
  }

  lemma {:induction false} OutcomeKeeps(d: Desk, actions: seq<Action>)
    requires Consistent(d) && Possible(d, actions)
    ensures Consistent(Outcome(d, actions)) && d.users <= Outcome(d, actions).users
    ensures d.answers <= Outcome(d, actions).answers
    decreases |actions|
  {
    if actions != [] {
      ActKeeps(d, actions[0]);
      OutcomeKeeps(Act(d, actions[0]), actions[1..]);
    }
  }

  lemma {:induction false} KeyOfMember(users: seq<User>, user: User)
    requires DistinctNames(users) && user in users
    ensures KeyOf(users, user.name) == Some(user.key)
  {
    if users[0] != user {
      KeyOfMember(users[1..], user);
    }
  }

  /**
   Over any interleaving of requests, saves and presses of the link button, from a store with whatever users:
   all replies to one device carry the same credentials, and the store knows that name by that key for good.
   */
  lemma PairingIsIdempotent(users: seq<User>, now: int, actions: seq<Action>, i: nat, j: nat)
    requires DistinctNames(users) && Possible(Desk(users, 0, now, [], []), actions)
    ensures var d := Outcome(Desk(users, 0, now, [], []), actions);
      i < |d.answers| && j < |d.answers| && d.answers[i].device == d.answers[j].device ==>
        d.answers[i] == d.answers[j] && KeyOf(d.users, d.answers[i].name) == Some(d.answers[i].key)
  {
    var start := Desk(users, 0, now, [], []);
    OutcomeKeeps(start, actions);
    var d := Outcome(start, actions);
    if i < |d.answers| {
      var a := d.answers[i];
      KeyOfMember(d.users, User(a.name, a.key, a.device));
    }
  }

  // ---- who is answered ----

  /** How many of the answers are for the device. */
  function For(answers: seq<Answer>, device: string): nat {
    if answers == [] then 0
    else
      var last := |answers| - 1;
      For(answers[..last], device) + (if answers[last].device == device then 1 else 0)
  }

  function Answered(d: Desk, device: string): nat { For(d.saving, device) + For(d.answers, device) }

  /** The request is for the device, and made while the button is pressed. */
  predicate AsksInTime(d: Desk, a: Action, device: string) {
    a.Request? && a.newcomer.device == device && d.now < d.expires
  }

  function AskedInTime(d: Desk, actions: seq<Action>, device: string): nat
    requires Possible(d, actions)
    decreases |actions|
  {
    if actions == [] then 0
    else (if AsksInTime(d, actions[0], device) then 1 else 0) + AskedInTime(Act(d, actions[0]), actions[1..], device)
  }

  lemma {:induction false} ForJoin(a: seq<Answer>, b: seq<Answer>, device: string)
    ensures For(a + b, device) == For(a, device) + For(b, device)
  {
    if b == [] {
      assert a + b == a;
    } else {
      ForJoin(a, b[..|b| - 1], device);
      assert (a + b)[..|a + b| - 1] == a + b[..|b| - 1];
    }
  }

  lemma ForOne(answer: Answer, device: string)
    ensures For([answer], device) == if answer.device == device then 1 else 0
  {
    assert [answer][..0] == [];
  }

  lemma ForMoves(saving: seq<Answer>, k: nat, device: string)
    requires k < |saving|
    ensures For(saving, device) == For(saving[..k] + saving[k + 1..], device) + For([saving[k]], device)
  {
    ForJoin(saving[..k], saving[k + 1..], device);
    ForJoin(saving[..k], [saving[k]], device);
    ForJoin(saving[..k] + [saving[k]], saving[k + 1..], device);
    assert saving == saving[..k] + [saving[k]] + saving[k + 1..];
  }

  /** A request in time is answered once, now or once the store is saved; nothing else is, and no answer is lost. */
  lemma ActAnswers(d: Desk, a: Action, device: string)
    requires Allowed(d, a)
    ensures Answered(Act(d, a), device) == Answered(d, device) + (if AsksInTime(d, a, device) then 1 else 0)
  {
    match a
    case Request(newcomer) =>
      WindowDecides(d.users, d.now < d.expires, newcomer);
      if d.now < d.expires {
        var (_, reply) := Requested(d.users, true, newcomer);
        var answer := Answer(newcomer.device, reply.name, reply.key);
        ForOne(answer, device);
        ForJoin(d.saving, [answer], device);
        ForJoin(d.answers, [answer], device);
      }
    case Saved(k) =>
      ForMoves(d.saving, k, device);
      ForJoin(d.answers, [d.saving[k]], device);
    case _ =>
  }

  lemma {:induction false} AnsweredFrom(d: Desk, actions: seq<Action>, device: string)
    requires Possible(d, actions)
    ensures Answered(Outcome(d, actions), device) == Answered(d, device) + AskedInTime(d, actions, device)
    decreases |actions|
  {
    if actions != [] {
      ActAnswers(d, actions[0], device);
      AnsweredFrom(Act(d, actions[0]), actions[1..], device);
    }
  }

  /**
   Over any interleaving, for any device: there are as many answers, given or waiting for the store to be saved, as
   there were requests while the button was pressed. Every one of those succeeds, and no other does.
   */
  lemma EveryRequestInTimeIsAnswered(users: seq<User>, now: int, actions: seq<Action>, device: string)
    requires Possible(Desk(users, 0, now, [], []), actions)
    ensures var d := Desk(users, 0, now, [], []);
      Answered(Outcome(d, actions), device) == AskedInTime(d, actions, device)
  {
    AnsweredFrom(Desk(users, 0, now, [], []), actions, device);
  }

  // ---- the window ----

  /** When the button was pressed last, unless it has been taken back since. */
  function PressedAt(d: Desk, actions: seq<Action>, before: Option<int>): Option<int>
    requires Possible(d, actions)
    decreases |actions|
  {
    if actions == [] then before
    else
      var a := actions[0];
      PressedAt(Act(d, a), actions[1..], if !a.Press? then before else if a.active then Some(d.now) else None)
  }

  lemma {:induction false} WindowFrom(d: Desk, actions: seq<Action>, before: Option<int>)
    requires Possible(d, actions) && d.now >= 0
    requires if before.Some? then d.expires == before.value + LINK_BUTTON_TIMEOUT else d.expires == 0
    ensures var r, at := Outcome(d, actions), PressedAt(d, actions, before);
      r.now >= 0 && if at.Some? then r.expires == at.value + LINK_BUTTON_TIMEOUT else r.expires == 0
    decreases |actions|
  {
    if actions != [] {
      var a := actions[0];
      WindowFrom(Act(d, a), actions[1..], if !a.Press? then before else if a.active then Some(d.now) else None);
    }
  }

  /** The window is open exactly for a minute from the last press that was not taken back. */
  lemma WindowFollowsPresses(users: seq<User>, now: nat, actions: seq<Action>)
    requires Possible(Desk(users, 0, now, [], []), actions)
    ensures var d := Desk(users, 0, now, [], []);
      var r, at := Outcome(d, actions), PressedAt(d, actions, None);
      r.now < r.expires <==> at.Some? && r.now < at.value + 60000
  {
    WindowFrom(Desk(users, 0, now, [], []), actions, None);
  }

  /** Nobody is added outside an open link window, and nobody is ever removed or given another key. */
  lemma {:induction false} OnlyWhilePressed(d: Desk, actions: seq<Action>)
    requires Consistent(d) && Possible(d, actions) && d.expires <= d.now
    requires forall a <- actions :: !a.Press? || !a.active
    requires d.now >= 0
    ensures Outcome(d, actions).users == d.users
    decreases |actions|
  {
    if actions != [] {
      assert actions[0] in actions;
      ActKeeps(d, actions[0]);
      OnlyWhilePressed(Act(d, actions[0]), actions[1..]);
    }
  }
}
