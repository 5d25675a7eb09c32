/**
  The daemon's configuration of people and sessions, the routing tables derived from it, and
  the rules for who gets a message and who may read and write a room
  (crates/silta/src/config.rs).
 */
module Routing {
  import opened Prelude

  datatype Person = Person(name: string, addresses: seq<string>)

  datatype Receive = All | Groups | Selective(people: seq<string>, rooms: seq<string>)

  datatype SendPolicy = Any | Own

  datatype Session = Session(name: string, receive: Receive, send: SendPolicy, user: string)

  /** The part of the configuration that routing depends on. */
  datatype Config = Config(bot: string, people: seq<Person>, sessions: seq<Session>)

  // ------------------------------------------------------------------------------------
  // Validation

  predicate IsUserId(s: string) {
    s != [] && s[0] == '@' && ':' in s[1..] && Last(s) != ':'
  }

  predicate IsRoomId(s: string) {
    s != [] && s[0] == '!'
  }

  predicate Distinct(items: seq<string>) {
    forall i, j :: 0 <= i < j < |items| ==> items[i] != items[j]
  }

  function Names(people: seq<Person>): seq<string> {
    if people == [] then [] else Names(Init(people)) + [Last(people).name]
  }

  function Addresses(people: seq<Person>): seq<string> {
    if people == [] then [] else Addresses(Init(people)) + Last(people).addresses
  }

  function SessionNames(sessions: seq<Session>): seq<string> {
    if sessions == [] then [] else SessionNames(Init(sessions)) + [Last(sessions).name]
  }

  function PeopleListed(receive: Receive): seq<string> {
    if receive.Selective? then receive.people else []
  }

  function RoomsListed(receive: Receive): seq<string> {
    if receive.Selective? then receive.rooms else []
  }

  function ListedPeople(sessions: seq<Session>): seq<string> {
    if sessions == [] then [] else ListedPeople(Init(sessions)) + PeopleListed(Last(sessions).receive)
  }

  function ListedRooms(sessions: seq<Session>): seq<string> {
    if sessions == [] then [] else ListedRooms(Init(sessions)) + RoomsListed(Last(sessions).receive)
  }

  predicate PeopleValid(bot: string, people: seq<Person>) {
    && Distinct(Names(people)) && [] !in Names(people)
    && Distinct(Addresses(people)) && (forall a :: a in Addresses(people) ==> IsUserId(a) && a != bot)
  }

  /** At most one session of a kind. */
  predicate AtMostOne(sessions: seq<Session>, receive: Receive) {
    forall i, j :: 0 <= i < j < |sessions| ==> !(sessions[i].receive == receive && sessions[j].receive == receive)
  }

  predicate SessionsValid(people: seq<Person>, sessions: seq<Session>) {
    && Distinct(SessionNames(sessions)) && [] !in SessionNames(sessions)
    && (forall i :: 0 <= i < |sessions| ==> sessions[i].user != [])
    && AtMostOne(sessions, All) && AtMostOne(sessions, Groups)
    && Distinct(ListedPeople(sessions)) && (forall p :: p in ListedPeople(sessions) ==> p in Names(people))
    && Distinct(ListedRooms(sessions)) && (forall r :: r in ListedRooms(sessions) ==> IsRoomId(r))
  }

  predicate Valid(config: Config) {
    IsUserId(config.bot) && PeopleValid(config.bot, config.people) && SessionsValid(config.people, config.sessions)
  }

  function ToSet(items: seq<string>): set<string> {
    set x | x in items
  }

  /** Adds the items one by one, as long as each is good and new. */
  method AddAll(seen: set<string>, items: seq<string>, good: string -> bool)
    returns (ok: bool, after: set<string>)
    ensures ok <==> Distinct(items) && forall x :: x in items ==> good(x) && x !in seen
    ensures ok ==> after == seen + ToSet(items)
  {
    after := seen;
    for k := 0 to |items|
      invariant after == seen + ToSet(items[..k])
      invariant Distinct(items[..k]) && forall x :: x in items[..k] ==> good(x) && x !in seen
    {
      assert items[..k + 1] == items[..k] + [items[k]];
      if !good(items[k]) || items[k] in after {
        if items[k] in after && items[k] !in seen {
          var j :| 0 <= j < k && items[..k][j] == items[k];
          assert items[j] == items[k];
        }
        return false, after;
      }
      after := after + {items[k]};
    }
    assert items[..|items|] == items;
    return true, after;
  }

  lemma DistinctSum(a: seq<string>, b: seq<string>)
    ensures Distinct(a + b) <==> Distinct(a) && Distinct(b) && forall x :: x in b ==> x !in a
  {
    var ab := a + b;
    assert forall i :: 0 <= i < |a| ==> ab[i] == a[i];
    assert forall i :: 0 <= i < |b| ==> ab[|a| + i] == b[i];
    if Distinct(ab) {
      forall i, j | 0 <= i < j < |b| ensures b[i] != b[j] {
        assert ab[|a| + i] != ab[|a| + j];
      }
      forall x | x in b ensures x !in a {
        var j :| 0 <= j < |b| && b[j] == x;
        assert ab[|a| + j] == x;
      }
    }
    if Distinct(a) && Distinct(b) && forall x :: x in b ==> x !in a {
      forall i, j | 0 <= i < j < |ab| ensures ab[i] != ab[j] {
        if i < |a| <= j {
          assert ab[j] == b[j - |a|] && ab[j] in b;
        } else if |a| <= i {
          assert ab[i] == b[i - |a|] && ab[j] == b[j - |a|];
        }
      }
    }
  }

  lemma PersonStep(bot: string, people: seq<Person>, p: Person)
    ensures Names(people + [p]) == Names(people) + [p.name]
    ensures Addresses(people + [p]) == Addresses(people) + p.addresses
    ensures PeopleValid(bot, people + [p]) <==>
            && PeopleValid(bot, people) && p.name != [] && p.name !in Names(people)
            && Distinct(p.addresses)
            && forall a :: a in p.addresses ==> IsUserId(a) && a != bot && a !in Addresses(people)
  {
    hide IsUserId;
    assert Init(people + [p]) == people;
    DistinctSum(Names(people), [p.name]);
    DistinctSum(Addresses(people), p.addresses);
  }

  lemma {:induction false} PeopleValidPrefix(bot: string, people: seq<Person>, k: nat)
    requires k <= |people| && PeopleValid(bot, people)
    ensures PeopleValid(bot, people[..k])
  {
    if k < |people| {
      assert people == Init(people) + [Last(people)];
      PersonStep(bot, Init(people), Last(people));
      PeopleValidPrefix(bot, Init(people), k);
      assert Init(people)[..k] == people[..k];
    } else {
      assert people[..k] == people;
    }
  }

  method ValidatePeople(bot: string, people: seq<Person>) returns (ok: bool, names: set<string>)
    ensures ok <==> PeopleValid(bot, people)
    ensures ok ==> names == ToSet(Names(people))
  {
    hide PeopleValid, Names, Addresses, IsUserId, Distinct;
    names := {};
    var addresses: set<string> := {};
    NobodyValid(bot);
    for k := 0 to |people|
      invariant PeopleValid(bot, people[..k])
      invariant names == ToSet(Names(people[..k])) && addresses == ToSet(Addresses(people[..k]))
    {
      var person := people[k];
      PersonStep(bot, people[..k], person);
      assert people[..k + 1] == people[..k] + [person];
      if PeopleValid(bot, people) {
        PeopleValidPrefix(bot, people, k + 1);
      }
      if person.name == [] || person.name in names {
        return false, names;
      }
      names := names + {person.name};
      var good;
      good, addresses := AddAll(addresses, person.addresses, a => IsUserId(a) && a != bot);
      if !good {
        return false, names;
      }
    }
    assert people[..|people|] == people;
    return true, names;
  }

  lemma NobodyValid(bot: string)
    ensures PeopleValid(bot, []) && Names([]) == [] && Addresses([]) == []
  {
  }

  lemma AtMostOneStep(sessions: seq<Session>, s: Session, receive: Receive)
    ensures AtMostOne(sessions + [s], receive) <==>
            AtMostOne(sessions, receive)
            && (s.receive == receive ==> forall i :: 0 <= i < |sessions| ==> sessions[i].receive != receive)
  {
    var more := sessions + [s];
    assert more[|sessions|] == s;
    assert forall i :: 0 <= i < |sessions| ==> more[i] == sessions[i];
  }

  predicate Has(sessions: seq<Session>, receive: Receive) {
    exists i :: 0 <= i < |sessions| && sessions[i].receive == receive
  }

  lemma SessionStep(people: seq<Person>, sessions: seq<Session>, s: Session)
    ensures SessionNames(sessions + [s]) == SessionNames(sessions) + [s.name]
    ensures ListedPeople(sessions + [s]) == ListedPeople(sessions) + PeopleListed(s.receive)
    ensures ListedRooms(sessions + [s]) == ListedRooms(sessions) + RoomsListed(s.receive)
    ensures SessionsValid(people, sessions + [s]) <==>
            && SessionsValid(people, sessions) && s.name != [] && s.name !in SessionNames(sessions) && s.user != []
            && (s.receive.All? ==> !Has(sessions, All)) && (s.receive.Groups? ==> !Has(sessions, Groups))
            && Distinct(PeopleListed(s.receive))
            && (forall p :: p in PeopleListed(s.receive) ==> p in Names(people) && p !in ListedPeople(sessions))
            && Distinct(RoomsListed(s.receive))
            && (forall r :: r in RoomsListed(s.receive) ==> IsRoomId(r) && r !in ListedRooms(sessions))
  {
    hide IsRoomId, Distinct, Names, AtMostOne;
    assert Init(sessions + [s]) == sessions;
    DistinctSum(SessionNames(sessions), [s.name]);
    DistinctSum(ListedPeople(sessions), PeopleListed(s.receive));
    DistinctSum(ListedRooms(sessions), RoomsListed(s.receive));
    OneIsDistinct(s.name);
    AtMostOneStep(sessions, s, All);
    AtMostOneStep(sessions, s, Groups);
    assert forall i :: 0 <= i < |sessions| ==> (sessions + [s])[i] == sessions[i];
    assert (sessions + [s])[|sessions|] == s;
  }

  lemma OneIsDistinct(x: string)
    ensures Distinct([x])
  {
  }

  lemma {:induction false} SessionsValidPrefix(people: seq<Person>, sessions: seq<Session>, k: nat)
    requires k <= |sessions| && SessionsValid(people, sessions)
    ensures SessionsValid(people, sessions[..k])
  {
    hide SessionsValid;
    if k < |sessions| {
      assert sessions == Init(sessions) + [Last(sessions)];
      SessionStep(people, Init(sessions), Last(sessions));
      SessionsValidPrefix(people, Init(sessions), k);
      assert Init(sessions)[..k] == sessions[..k];
    } else {
      assert sessions[..k] == sessions;
    }
  }

  lemma NoSessionsValid(people: seq<Person>)
    ensures SessionsValid(people, [])
    ensures SessionNames([]) == [] && ListedPeople([]) == [] && ListedRooms([]) == [] && !Has([], All) && !Has([], Groups)
  {
  }

  lemma HasStep(sessions: seq<Session>, s: Session, receive: Receive)
    ensures Has(sessions + [s], receive) <==> Has(sessions, receive) || s.receive == receive
  {
    assert (sessions + [s])[|sessions|] == s;
    assert forall i :: 0 <= i < |sessions| ==> (sessions + [s])[i] == sessions[i];
  }

  method ValidateSessions(people: seq<Person>, names: set<string>, sessions: seq<Session>) returns (ok: bool)
    requires names == ToSet(Names(people))
    ensures ok <==> SessionsValid(people, sessions)
  {
    hide SessionsValid, Names, SessionNames, ListedPeople, ListedRooms, Distinct, IsRoomId, Has;
    var sessionNames, people', rooms: set<string> := {}, {}, {};
    var all, groups := false, false;
    NoSessionsValid(people);
    for k := 0 to |sessions|
      invariant SessionsValid(people, sessions[..k])
      invariant sessionNames == ToSet(SessionNames(sessions[..k]))
      invariant people' == ToSet(ListedPeople(sessions[..k])) && rooms == ToSet(ListedRooms(sessions[..k]))
      invariant all == Has(sessions[..k], All) && groups == Has(sessions[..k], Groups)
    {
      var session := sessions[k];
      SessionStep(people, sessions[..k], session);
      HasStep(sessions[..k], session, All);
      HasStep(sessions[..k], session, Groups);
      assert sessions[..k + 1] == sessions[..k] + [session];
      if SessionsValid(people, sessions) {
        SessionsValidPrefix(people, sessions, k + 1);
      }
      if session.name == [] || session.name in sessionNames || session.user == [] {
        return false;
      }
      sessionNames := sessionNames + {session.name};
      match session.receive {
        case Groups =>
          if groups {
            return false;
          }
          groups := true;
        case All =>
          if all {
            return false;
          }
          all := true;
        case Selective(listed, listedRooms) =>
          var good;
          good, people' := AddAll(people', listed, p => p in names);
          if !good {
            return false;
          }
          good, rooms := AddAll(rooms, listedRooms, r => IsRoomId(r));
          if !good {
            return false;
          }
      }
      if !session.receive.Selective? {
        NothingListed();
      }
    }
    assert sessions[..|sessions|] == sessions;
    return true;
  }

  lemma NothingListed()
    ensures Distinct([])
  {
  }

  /** Every check of the people and the sessions is passed exactly by the valid configurations. */
  method Validate(config: Config) returns (ok: bool)
    ensures ok <==> Valid(config)
  {
    hide PeopleValid, SessionsValid;
    if !IsUserId(config.bot) {
      return false;
    }
    var names;
    ok, names := ValidatePeople(config.bot, config.people);
    if ok {
      ok := ValidateSessions(config.people, names, config.sessions);
    }
  }

  // ------------------------------------------------------------------------------------
  // The routing tables

  datatype Tables = Tables(
    bot: string,
    people: seq<Person>,
    byAddress: map<string, nat>,
    sessions: seq<Session>,
    byName: map<string, nat>,
    byRoom: map<string, nat>,
    byPerson: map<string, nat>,
    all: Option<nat>,
    groups: Option<nat>)

  /** A table from keys to the one entry that has the key. */
  ghost predicate Indexes(table: map<string, nat>, n: nat, keys: nat -> seq<string>) {
    && (forall k :: k in table ==> table[k] < n && k in keys(table[k]))
    && (forall i: nat, k :: i < n && k in keys(i) ==> k in table && table[k] == i)
  }

  /** The session of a kind, if there is one. */
  predicate Finds(found: Option<nat>, sessions: seq<Session>, receive: Receive) {
    && (found.Some? ==> found.value < |sessions| && sessions[found.value].receive == receive)
    && (forall i :: 0 <= i < |sessions| && sessions[i].receive == receive ==> found == Some(i))
  }

  function AddressesOf(people: seq<Person>): nat -> seq<string> {
    (i: nat) => if i < |people| then people[i].addresses else []
  }

  function NameOf(sessions: seq<Session>): nat -> seq<string> {
    (i: nat) => if i < |sessions| then [sessions[i].name] else []
  }

  function PeopleOf(sessions: seq<Session>): nat -> seq<string> {
    (i: nat) => if i < |sessions| then PeopleListed(sessions[i].receive) else []
  }

  function RoomsOf(sessions: seq<Session>): nat -> seq<string> {
    (i: nat) => if i < |sessions| then RoomsListed(sessions[i].receive) else []
  }

  /** The tables say what the configuration says. */
  ghost predicate Derived(t: Tables, config: Config) {
    && t.bot == config.bot && t.people == config.people && t.sessions == config.sessions
    && Indexes(t.byAddress, |t.people|, AddressesOf(t.people))
    && Indexes(t.byName, |t.sessions|, NameOf(t.sessions))
    && Indexes(t.byPerson, |t.sessions|, PeopleOf(t.sessions))
    && Indexes(t.byRoom, |t.sessions|, RoomsOf(t.sessions))
    && Finds(t.all, t.sessions, All) && Finds(t.groups, t.sessions, Groups)
  }

  method InsertAll(table: map<string, nat>, keys: seq<string>, value: nat) returns (after: map<string, nat>)
    ensures after.Keys == table.Keys + ToSet(keys)
    ensures forall k :: k in after ==> after[k] == if k in keys then value else table[k]
  {
    after := table;
    for j := 0 to |keys|
      invariant after.Keys == table.Keys + ToSet(keys[..j])
      invariant forall k :: k in after ==> after[k] == if k in keys[..j] then value else table[k]
    {
      assert keys[..j + 1] == keys[..j] + [keys[j]];
      after := after[keys[j] := value];
    }
    assert keys[..|keys|] == keys;
  }

  /** No key belongs to two entries. */
  ghost predicate Apart(n: nat, keys: nat -> seq<string>) {
    forall i, j, k :: 0 <= i < j < n && k in keys(i) ==> k !in keys(j)
  }

  lemma IndexesStep(table: map<string, nat>, after: map<string, nat>, n: nat, keys: nat -> seq<string>)
    requires Indexes(table, n, keys) && Apart(n + 1, keys)
    requires after.Keys == table.Keys + ToSet(keys(n))
    requires forall k :: k in after ==> after[k] == if k in keys(n) then n else table[k]
    ensures Indexes(after, n + 1, keys)
  {
  }

  lemma NoneApart(keys: nat -> seq<string>)
    ensures Apart(0, keys)
  {
  }

  /** Keys apart from all before them. */
  lemma ApartStep(n: nat, keys: nat -> seq<string>)
    requires Apart(n, keys) && forall i, k :: 0 <= i < n && k in keys(i) ==> k !in keys(n)
    ensures Apart(n + 1, keys)
  {
  }

  lemma {:induction false} AddressesApart(people: seq<Person>, n: nat)
    requires n <= |people| && Distinct(Addresses(people[..n]))
    ensures Apart(n, AddressesOf(people))
    ensures forall i, k :: 0 <= i < n && k in people[i].addresses ==> k in Addresses(people[..n])
  {
    hide Distinct, Apart;
    NoneApart(AddressesOf(people));
    if n > 0 {
      assert Init(people[..n]) == people[..n - 1] && Last(people[..n]) == people[n - 1];
      DistinctSum(Addresses(people[..n - 1]), people[n - 1].addresses);
      AddressesApart(people, n - 1);
      ApartStep(n - 1, AddressesOf(people));
    }
  }

  lemma {:induction false} NamesApart(sessions: seq<Session>, n: nat)
    requires n <= |sessions| && Distinct(SessionNames(sessions[..n]))
    ensures Apart(n, NameOf(sessions))
    ensures forall i :: 0 <= i < n ==> sessions[i].name in SessionNames(sessions[..n])
  {
    hide Distinct, Apart;
    NoneApart(NameOf(sessions));
    if n > 0 {
      assert Init(sessions[..n]) == sessions[..n - 1] && Last(sessions[..n]) == sessions[n - 1];
      DistinctSum(SessionNames(sessions[..n - 1]), [sessions[n - 1].name]);
      NamesApart(sessions, n - 1);
      ApartStep(n - 1, NameOf(sessions));
    }
  }

  lemma {:induction false} PeopleApart(sessions: seq<Session>, n: nat)
    requires n <= |sessions| && Distinct(ListedPeople(sessions[..n]))
    ensures Apart(n, PeopleOf(sessions))
    ensures forall i, k :: 0 <= i < n && k in PeopleListed(sessions[i].receive) ==> k in ListedPeople(sessions[..n])
  {
    hide Distinct, Apart;
    NoneApart(PeopleOf(sessions));
    if n > 0 {
      assert Init(sessions[..n]) == sessions[..n - 1] && Last(sessions[..n]) == sessions[n - 1];
      DistinctSum(ListedPeople(sessions[..n - 1]), PeopleListed(sessions[n - 1].receive));
      PeopleApart(sessions, n - 1);
      ApartStep(n - 1, PeopleOf(sessions));
    }
  }

  lemma {:induction false} RoomsApart(sessions: seq<Session>, n: nat)
    requires n <= |sessions| && Distinct(ListedRooms(sessions[..n]))
    ensures Apart(n, RoomsOf(sessions))
    ensures forall i, k :: 0 <= i < n && k in RoomsListed(sessions[i].receive) ==> k in ListedRooms(sessions[..n])
  {
    hide Distinct, Apart;
    NoneApart(RoomsOf(sessions));
    if n > 0 {
      assert Init(sessions[..n]) == sessions[..n - 1] && Last(sessions[..n]) == sessions[n - 1];
      DistinctSum(ListedRooms(sessions[..n - 1]), RoomsListed(sessions[n - 1].receive));
      RoomsApart(sessions, n - 1);
      ApartStep(n - 1, RoomsOf(sessions));
    }
  }

  lemma ValidApart(config: Config)
    requires Valid(config)
    ensures Apart(|config.people|, AddressesOf(config.people)) && Apart(|config.sessions|, NameOf(config.sessions))
    ensures Apart(|config.sessions|, PeopleOf(config.sessions)) && Apart(|config.sessions|, RoomsOf(config.sessions))
  {
    hide Apart;
    var people, sessions := config.people, config.sessions;
    assert people[..|people|] == people && sessions[..|sessions|] == sessions;
    AddressesApart(people, |people|);
    NamesApart(sessions, |sessions|);
    PeopleApart(sessions, |sessions|);
    RoomsApart(sessions, |sessions|);
  }

  lemma ApartUpTo(n: nat, m: nat, keys: nat -> seq<string>)
    requires Apart(n, keys) && m <= n
    ensures Apart(m, keys)
  {
  }

  lemma NothingIndexed(keys: nat -> seq<string>)
    ensures Indexes(map[], 0, keys)
  {
  }

  lemma FindsStep(found: Option<nat>, config: Config, i: nat, receive: Receive)
    requires Valid(config) && i < |config.sessions| && !receive.Selective?
    requires Finds(found, config.sessions[..i], receive)
    ensures Finds(if config.sessions[i].receive == receive then Some(i) else found, config.sessions[..i + 1], receive)
  {
    hide Distinct, ListedPeople, ListedRooms, PeopleValid, SessionNames;
    var sessions := config.sessions;
    assert forall j :: 0 <= j < i ==> sessions[..i][j] == sessions[j];
    assert forall j :: 0 <= j <= i ==> sessions[..i + 1][j] == sessions[j];
    assert AtMostOne(sessions, receive);
  }

  method AddressTable(people: seq<Person>) returns (byAddress: map<string, nat>)
    requires Apart(|people|, AddressesOf(people))
    ensures Indexes(byAddress, |people|, AddressesOf(people))
  {
    hide Indexes, Apart;
    byAddress := map[];
    NothingIndexed(AddressesOf(people));
    for i := 0 to |people|
      invariant Indexes(byAddress, i, AddressesOf(people))
    {
      var after := InsertAll(byAddress, people[i].addresses, i);
      ApartUpTo(|people|, i + 1, AddressesOf(people));
      IndexesStep(byAddress, after, i, AddressesOf(people));
      byAddress := after;
    }
  }

  /** The tables of a valid configuration say exactly what the configuration says. */
  method BuildTables(config: Config) returns (t: Tables)
    requires Valid(config)
    ensures Derived(t, config)
  {
    hide Valid, Indexes, Apart, Finds;
    ValidApart(config);
    var sessions := config.sessions;
    var byAddress := AddressTable(config.people);
    var byName, byRoom, byPerson: map<string, nat> := map[], map[], map[];
    var all: Option<nat>, groups: Option<nat> := None, None;
    NothingIndexed(NameOf(sessions));
    NothingIndexed(RoomsOf(sessions));
    NothingIndexed(PeopleOf(sessions));
    NothingFound();
    for i := 0 to |sessions|
      invariant Indexes(byName, i, NameOf(sessions))
      invariant Indexes(byPerson, i, PeopleOf(sessions)) && Indexes(byRoom, i, RoomsOf(sessions))
      invariant Finds(all, sessions[..i], All) && Finds(groups, sessions[..i], Groups)
    {
      FindsStep(all, config, i, All);
      FindsStep(groups, config, i, Groups);
      byName := AddEntry(byName, NameOf(sessions), i, |sessions|);
      byPerson := AddEntry(byPerson, PeopleOf(sessions), i, |sessions|);
      byRoom := AddEntry(byRoom, RoomsOf(sessions), i, |sessions|);
      match sessions[i].receive {
        case All => all := Some(i);
        case Groups => groups := Some(i);
        case Selective(_, _) =>
      }
    }
    assert sessions[..|sessions|] == sessions;
    t := Tables(config.bot, config.people, byAddress, sessions, byName, byRoom, byPerson, all, groups);
  }

  lemma NothingFound()
    ensures Finds(None, [], All) && Finds(None, [], Groups)
  {
  }

  method AddEntry(table: map<string, nat>, keys: nat -> seq<string>, i: nat, n: nat) returns (after: map<string, nat>)
    requires Indexes(table, i, keys) && Apart(n, keys) && i < n
    ensures Indexes(after, i + 1, keys)
  {
    hide Indexes, Apart;
    after := InsertAll(table, keys(i), i);
    ApartUpTo(n, i + 1, keys);
    IndexesStep(table, after, i, keys);
  }

  // ------------------------------------------------------------------------------------
  // Decisions

  datatype RoomShape = RoomShape(direct: bool, named: bool)

  datatype RoomKind = Dm | Group

  datatype DropReason = OwnMessage | UnknownSender | NoSession

  datatype Inbound = Deliver(session: string, person: Person, room: RoomKind) | Drop(reason: DropReason)

  datatype Verdict = Granted | UnknownSession | NotAllowed

  predicate InRange(t: Tables) {
    && (forall a :: a in t.byAddress ==> t.byAddress[a] < |t.people|)
    && (forall s :: s in t.byName ==> t.byName[s] < |t.sessions|)
    && (forall r :: r in t.byRoom ==> t.byRoom[r] < |t.sessions|)
    && (forall p :: p in t.byPerson ==> t.byPerson[p] < |t.sessions|)
    && (t.all.Some? ==> t.all.value < |t.sessions|) && (t.groups.Some? ==> t.groups.value < |t.sessions|)
  }

  function PersonFor(t: Tables, address: string): Option<Person>
    requires InRange(t)
  {
    if address in t.byAddress then Some(t.people[t.byAddress[address]]) else None
  }

  /** The names of the registered people among the members, and whether the others are all the bot. */
  method PeopleIn(t: Tables, members: seq<string>) returns (people: set<string>, allRegistered: bool)
    requires InRange(t)
    ensures people == PeopleAmong(t, members) && allRegistered == AllRegistered(t, members)
  {
    hide InRange;
    people, allRegistered := {}, true;
    for k := 0 to |members|
      invariant people == PeopleAmong(t, members[..k]) && allRegistered == AllRegistered(t, members[..k])
    {
      var member := members[k];
      assert members[..k + 1] == members[..k] + [member];
      AmongStep(t, members[..k], member);
      if member == t.bot {
        continue;
      }
      match PersonFor(t, member) {
        case Some(person) => people := people + {person.name};
        case None => allRegistered := false;
      }
    }
    assert members[..|members|] == members;
  }

  function PeopleAmong(t: Tables, members: seq<string>): set<string>
    requires InRange(t)
  {
    set m | m in members && m != t.bot && PersonFor(t, m).Some? :: PersonFor(t, m).value.name
  }

  predicate AllRegistered(t: Tables, members: seq<string>)
    requires InRange(t)
  {
    forall m :: m in members && m != t.bot ==> PersonFor(t, m).Some?
  }

  lemma AmongStep(t: Tables, members: seq<string>, m: string)
    requires InRange(t)
    ensures PeopleAmong(t, members + [m]) == PeopleAmong(t, members)
              + (if m != t.bot && PersonFor(t, m).Some? then {PersonFor(t, m).value.name} else {})
    ensures AllRegistered(t, members + [m]) <==> AllRegistered(t, members) && (m == t.bot || PersonFor(t, m).Some?)
  {
    hide InRange, PersonFor;
    assert forall x :: x in members + [m] <==> x in members || x == m;
  }

  predicate IsGroup(people: nat, shape: RoomShape) {
    people >= 2 || (!shape.direct && shape.named)
  }

  /** The index of the session that gets a message of this person. */
  function Owner(t: Tables, person: string, room: string, members: seq<string>, shape: RoomShape): Option<nat>
    requires InRange(t)
  {
    if room in t.byRoom then Some(t.byRoom[room]) else
    var specific :=
      if IsGroup(|PeopleAmong(t, members)|, shape) then t.groups
      else if person in t.byPerson then Some(t.byPerson[person]) else None;
    if specific.Some? then specific else t.all
  }

  method Route(t: Tables, sender: string, room: string, members: seq<string>, shape: RoomShape) returns (r: Inbound)
    requires InRange(t)
    ensures r == RouteOf(t, sender, room, members, shape)
  {
    if sender == t.bot {
      return Drop(OwnMessage);
    }
    var sought := PersonFor(t, sender);
    if sought.None? {
      return Drop(UnknownSender);
    }
    var person := sought.value;
    var people, _ := PeopleIn(t, members);
    var group := IsGroup(|people|, shape);
    var owner: Option<nat>;
    if room in t.byRoom {
      owner := Some(t.byRoom[room]);
    } else {
      owner := if group then t.groups
               else if person.name in t.byPerson then Some(t.byPerson[person.name]) else None;
      if owner.None? {
        owner := t.all;
      }
    }
    var kind := if group then Group else Dm;
    match owner {
      case Some(i) => r := Deliver(t.sessions[i].name, person, kind);
      case None => r := Drop(NoSession);
    }
  }

  function RouteOf(t: Tables, sender: string, room: string, members: seq<string>, shape: RoomShape): Inbound
    requires InRange(t)
  {
    if sender == t.bot then Drop(OwnMessage)
    else match PersonFor(t, sender) {
      case None => Drop(UnknownSender)
      case Some(person) =>
        match Owner(t, person.name, room, members, shape)
        case None => Drop(NoSession)
        case Some(i) =>
          Deliver(t.sessions[i].name, person, if IsGroup(|PeopleAmong(t, members)|, shape) then Group else Dm)
    }
  }

  predicate OwnsRoom(t: Tables, i: nat, room: string, members: seq<string>, shape: RoomShape)
    requires InRange(t) && i < |t.sessions|
  {
    if room in t.byRoom && t.byRoom[room] == i then true else
    var people := PeopleAmong(t, members);
    if people == {} || !AllRegistered(t, members) then false else
    var group := IsGroup(|people|, shape);
    match t.sessions[i].receive
    case All => true
    case Groups => group
    case Selective(listed, _) => !group && forall p :: p in people ==> p in listed
  }

  function MaySend(t: Tables, session: string, room: string, members: seq<string>, shape: RoomShape): Verdict
    requires InRange(t)
  {
    if session !in t.byName then UnknownSession else
    var i := t.byName[session];
    if t.sessions[i].send == Any || OwnsRoom(t, i, room, members, shape) then Granted else NotAllowed
  }

  function MayRead(t: Tables, session: string, room: string, members: seq<string>, shape: RoomShape): Verdict
    requires InRange(t)
  {
    if session !in t.byName then UnknownSession else
    var i := t.byName[session];
    if t.all == Some(i) || OwnsRoom(t, i, room, members, shape) then Granted else NotAllowed
  }

  // ------------------------------------------------------------------------------------
  // Routing agrees with ownership

  lemma DerivedInRange(t: Tables, config: Config)
    requires Derived(t, config)
    ensures InRange(t)
  {
  }

  /** An address is registered for the one person who lists it. */
  lemma RegisteredFor(t: Tables, config: Config, address: string, i: nat)
    requires Derived(t, config) && i < |config.people|
    ensures address in config.people[i].addresses <==> address in t.byAddress && t.byAddress[address] == i
  {
    hide Finds;
    assert AddressesOf(t.people)(i) == config.people[i].addresses;
  }

  lemma NamedSession(t: Tables, config: Config, i: nat)
    requires Derived(t, config) && i < |t.sessions|
    ensures t.sessions[i].name in t.byName && t.byName[t.sessions[i].name] == i
  {
    hide Finds;
    assert t.sessions[i].name in NameOf(t.sessions)(i);
  }

  /** The table of people says who is listed by a session. */
  lemma ListedBy(t: Tables, config: Config, i: nat, person: string)
    requires Derived(t, config) && i < |t.sessions|
    ensures person in PeopleListed(t.sessions[i].receive) <==> person in t.byPerson && t.byPerson[person] == i
  {
    hide Finds;
    assert PeopleOf(t.sessions)(i) == PeopleListed(t.sessions[i].receive);
  }

  /** The table of rooms says which session lists a room. */
  lemma RoomListedBy(t: Tables, config: Config, i: nat, room: string)
    requires Derived(t, config) && i < |t.sessions|
    ensures room in RoomsListed(t.sessions[i].receive) <==> room in t.byRoom && t.byRoom[room] == i
  {
    hide Finds;
    assert RoomsOf(t.sessions)(i) == RoomsListed(t.sessions[i].receive);
  }

  /** No session lists the room. */
  predicate Unlisted(config: Config, room: string) {
    forall j :: 0 <= j < |config.sessions| ==> room !in RoomsListed(config.sessions[j].receive)
  }

  lemma UnlistedMeans(t: Tables, config: Config, room: string)
    requires Derived(t, config)
    ensures Unlisted(config, room) <==> room !in t.byRoom
  {
    hide Finds, RoomsListed;
    if room in t.byRoom {
      DerivedInRange(t, config);
      RoomListedBy(t, config, t.byRoom[room], room);
    }
    forall j | 0 <= j < |config.sessions| && room in RoomsListed(config.sessions[j].receive) ensures room in t.byRoom {
      RoomListedBy(t, config, j, room);
    }
  }

  /** The message of this member reaches the session. */
  predicate RoutedTo(t: Tables, i: nat, sender: string, room: string, members: seq<string>, shape: RoomShape)
    requires InRange(t) && i < |t.sessions|
  {
    var r := RouteOf(t, sender, room, members, shape);
    r.Deliver? && r.session == t.sessions[i].name
  }

  /** In terms of the tables, a message reaches a session when it is that person's owner. */
  lemma RoutedToMeans(t: Tables, config: Config, i: nat, m: string, room: string, members: seq<string>, shape: RoomShape)
    requires Derived(t, config) && InRange(t) && i < |t.sessions|
    ensures RoutedTo(t, i, m, room, members, shape) <==>
            m != t.bot && PersonFor(t, m).Some? && Owner(t, PersonFor(t, m).value.name, room, members, shape) == Some(i)
  {
    hide Indexes, Finds, PersonFor, PeopleAmong, IsGroup;
    NamedSession(t, config, i);
    if m != t.bot && PersonFor(t, m).Some? {
      var owner := Owner(t, PersonFor(t, m).value.name, room, members, shape);
      if owner.Some? {
        NamedSession(t, config, owner.value);
      }
    }
  }

  /** Whose message reaches a session other than the `all` session in a room nobody lists. */
  lemma OwnerOfUnlisted(t: Tables, config: Config, i: nat, p: string, room: string, members: seq<string>, shape: RoomShape)
    requires Derived(t, config) && InRange(t) && i < |t.sessions|
    requires room !in t.byRoom && !t.sessions[i].receive.All?
    ensures Owner(t, p, room, members, shape) == Some(i) <==>
            if t.sessions[i].receive.Groups? then IsGroup(|PeopleAmong(t, members)|, shape)
            else !IsGroup(|PeopleAmong(t, members)|, shape) && p in PeopleListed(t.sessions[i].receive)
  {
    hide Indexes, PeopleAmong, IsGroup, PeopleListed;
    ListedBy(t, config, i, p);
    NotSelective(t.sessions[i].receive);
    if p in t.byPerson {
      ListedBy(t, config, t.byPerson[p], p);
      NotSelective(t.sessions[t.byPerson[p]].receive);
    }
  }

  lemma NotSelective(receive: Receive)
    ensures !receive.Selective? ==> PeopleListed(receive) == []
  {
  }

  /**
    In a room nobody lists whose members are all registered, a session other than the `all`
    session owns the room exactly if the message of every member is routed to it.
   */
  lemma OwnershipIsRouting(t: Tables, config: Config, i: nat, room: string, members: seq<string>, shape: RoomShape)
    requires Derived(t, config) && InRange(t) && i < |t.sessions| && !t.sessions[i].receive.All?
    requires Unlisted(config, room) && AllRegistered(t, members) && PeopleAmong(t, members) != {}
    ensures OwnsRoom(t, i, room, members, shape) <==>
            forall m :: m in members && m != t.bot ==> RoutedTo(t, i, m, room, members, shape)
  {
    hide Derived, Indexes, InRange, Finds, Unlisted, PersonFor, IsGroup, RoutedTo, Owner;
    UnlistedMeans(t, config, room);
    forall m | m in members && m != t.bot
      ensures RoutedTo(t, i, m, room, members, shape) <==>
              if t.sessions[i].receive.Groups? then IsGroup(|PeopleAmong(t, members)|, shape)
              else !IsGroup(|PeopleAmong(t, members)|, shape) && PersonFor(t, m).value.name in PeopleListed(t.sessions[i].receive)
      ensures PersonFor(t, m).value.name in PeopleAmong(t, members)
    {
      RoutedToMeans(t, config, i, m, room, members, shape);
      OwnerOfUnlisted(t, config, i, PersonFor(t, m).value.name, room, members, shape);
    }
    SomePerson(t, members);
  }

  /** A room with a person has a member other than the bot, and every person is some member. */
  lemma SomePerson(t: Tables, members: seq<string>)
    requires InRange(t) && PeopleAmong(t, members) != {}
    ensures exists m :: m in members && m != t.bot && PersonFor(t, m).Some?
    ensures forall p :: p in PeopleAmong(t, members) ==>
              exists m :: m in members && m != t.bot && PersonFor(t, m).Some? && PersonFor(t, m).value.name == p
  {
    hide InRange, PersonFor;
    var p :| p in PeopleAmong(t, members);
  }

  /** At most one session other than the `all` session owns such a room. */
  lemma SoleOwner(t: Tables, config: Config, i: nat, j: nat, room: string, members: seq<string>, shape: RoomShape)
    requires Derived(t, config) && InRange(t) && i < |t.sessions| && j < |t.sessions|
    requires !t.sessions[i].receive.All? && !t.sessions[j].receive.All?
    requires Unlisted(config, room)
    requires OwnsRoom(t, i, room, members, shape) && OwnsRoom(t, j, room, members, shape)
    ensures i == j
  {
    hide Indexes, InRange, Finds, Unlisted, PersonFor, IsGroup, RouteOf, Derived;
    UnlistedMeans(t, config, room);
    OwnershipIsRouting(t, config, i, room, members, shape);
    OwnershipIsRouting(t, config, j, room, members, shape);
    SomePerson(t, members);
    var m :| m in members && m != t.bot;
    assert RoutedTo(t, i, m, room, members, shape) && RoutedTo(t, j, m, room, members, shape);
    NamedSession(t, config, i);
    NamedSession(t, config, j);
  }

  /**
    The session a message is delivered to, the sender being in the room, may answer there exactly
    if its policy is to write anywhere, it lists the room, or every member is registered; and
    it may read there exactly if it is the `all` session, it lists the room, or every member is
    registered.
   */
  lemma RecipientMayAnswer(
      t: Tables, config: Config, i: nat, sender: string, room: string, members: seq<string>, shape: RoomShape)
    requires Derived(t, config) && InRange(t) && i < |t.sessions|
    requires sender in members && RoutedTo(t, i, sender, room, members, shape)
    ensures var s := t.sessions[i];
            && (MaySend(t, s.name, room, members, shape) == Granted <==>
                s.send == Any || room in RoomsListed(s.receive) || AllRegistered(t, members))
            && (MayRead(t, s.name, room, members, shape) == Granted <==>
                s.receive == All || room in RoomsListed(s.receive) || AllRegistered(t, members))
  {
    hide Derived, Indexes, InRange, PersonFor, RoutedTo, RoomsListed;
    var s := t.sessions[i];
    NamedSession(t, config, i);
    RoomListedBy(t, config, i, room);
    KindFound(t, config, i);
    RoutedToMeans(t, config, i, sender, room, members, shape);
    RecipientOwns(t, config, i, sender, room, members, shape);
  }

  lemma RecipientOwns(
      t: Tables, config: Config, i: nat, sender: string, room: string, members: seq<string>, shape: RoomShape)
    requires Derived(t, config) && InRange(t) && i < |t.sessions|
    requires sender in members && RoutedTo(t, i, sender, room, members, shape)
    ensures OwnsRoom(t, i, room, members, shape) <==> room in RoomsListed(t.sessions[i].receive) || AllRegistered(t, members)
  {
    hide Derived, Indexes, InRange, PersonFor, RoutedTo, RoomsListed, IsGroup;
    RoutedToMeans(t, config, i, sender, room, members, shape);
    RoomListedBy(t, config, i, room);
    assert PersonFor(t, sender).value.name in PeopleAmong(t, members);
    if room !in t.byRoom && AllRegistered(t, members) && !t.sessions[i].receive.All? {
      var p := PersonFor(t, sender).value.name;
      OwnerOfUnlisted(t, config, i, p, room, members, shape);
      if !IsGroup(|PeopleAmong(t, members)|, shape) {
        OnlyMember(PeopleAmong(t, members), p, shape);
      }
    }
  }

  lemma OnlyMember(people: set<string>, p: string, shape: RoomShape)
    requires p in people && !IsGroup(|people|, shape)
    ensures forall q :: q in people ==> q == p
  {
    assert |people - {p}| == |people| - 1 == 0;
    forall q | q in people ensures q == p {
      assert q !in people - {p};
    }
  }

  // ------------------------------------------------------------------------------------
  // The decision in terms of the configuration

  /** The person listing an address. */
  predicate Lists(config: Config, i: nat, address: string) {
    i < |config.people| && address in config.people[i].addresses
  }

  /** A session of a kind. */
  predicate HasKind(config: Config, receive: Receive) {
    exists i :: 0 <= i < |config.sessions| && config.sessions[i].receive == receive
  }

  /** A session listing a person. */
  predicate IsListed(config: Config, person: string) {
    exists i :: 0 <= i < |config.sessions| && person in PeopleListed(config.sessions[i].receive)
  }

  lemma RegisteredMeans(t: Tables, config: Config, address: string)
    requires Derived(t, config) && InRange(t)
    ensures match PersonFor(t, address)
            case None => forall i: nat :: !Lists(config, i, address)
            case Some(person) => exists i: nat :: Lists(config, i, address) && person == config.people[i]
  {
    hide Indexes, Finds;
    forall i: nat | Lists(config, i, address) ensures PersonFor(t, address) == Some(config.people[i]) {
      RegisteredFor(t, config, address, i);
    }
    if address in t.byAddress {
      RegisteredFor(t, config, address, t.byAddress[address]);
      assert Lists(config, t.byAddress[address], address);
    }
  }

  lemma KindMeans(t: Tables, config: Config)
    requires Derived(t, config)
    ensures t.all.Some? <==> HasKind(config, All)
    ensures t.groups.Some? <==> HasKind(config, Groups)
  {
    hide Indexes;
  }

  lemma IsListedMeans(t: Tables, config: Config, person: string)
    requires Derived(t, config)
    ensures person in t.byPerson <==> IsListed(config, person)
  {
    hide Indexes, Finds, PeopleListed;
    if person in t.byPerson {
      DerivedInRange(t, config);
      ListedBy(t, config, t.byPerson[person], person);
    }
    forall i | 0 <= i < |config.sessions| && person in PeopleListed(config.sessions[i].receive) ensures person in t.byPerson {
      ListedBy(t, config, i, person);
    }
  }

  /** Whether a room is a group: of at least two registered people, or named and not direct. */
  predicate MakesGroup(people: set<string>, shape: RoomShape) {
    (exists p, q :: p in people && q in people && p != q) || (!shape.direct && shape.named)
  }

  lemma GroupMeans(people: set<string>, shape: RoomShape)
    ensures IsGroup(|people|, shape) <==> MakesGroup(people, shape)
  {
    if p, q :| p in people && q in people && p != q {
      assert |people - {p}| == |people| - 1;
      assert q in people - {p};
    } else if people != {} {
      var p :| p in people;
      assert people == {p};
    }
  }

  /**
    Why a message is dropped, and what is told of one that is delivered, as the configuration
    has it.
   */
  lemma RouteMeans(t: Tables, config: Config, sender: string, room: string, members: seq<string>, shape: RoomShape)
    requires Derived(t, config) && InRange(t)
    ensures var r := RouteOf(t, sender, room, members, shape);
            var group := GroupRoom(config, members, shape);
            && (r == Drop(OwnMessage) <==> sender == config.bot)
            && (r == Drop(UnknownSender) <==> sender != config.bot && forall i: nat :: !Lists(config, i, sender))
            && (r.Deliver? ==> r.room == (if group then Group else Dm)
                               && exists i: nat :: Lists(config, i, sender) && r.person == config.people[i])
            && (r == Drop(NoSession) <==>
                && sender != config.bot && Unlisted(config, room) && !HasKind(config, All)
                && exists i: nat :: Lists(config, i, sender)
                                    && if group then !HasKind(config, Groups) else !IsListed(config, config.people[i].name))
  {
    hide Derived, Indexes, Finds, InRange, PersonFor, PeopleAmong, IsGroup, MakesGroup, GroupRoom, HasKind, IsListed, Unlisted, Lists;
    UnlistedMeans(t, config, room);
    RegisteredMeans(t, config, sender);
    KindMeans(t, config);
    GroupRoomMeans(t, config, members, shape);
    OnePerson(t, config, sender);
    if PersonFor(t, sender).Some? {
      IsListedMeans(t, config, PersonFor(t, sender).value.name);
    }
    SameSessions(t, config);
  }

  lemma OnePerson(t: Tables, config: Config, address: string)
    requires Derived(t, config) && InRange(t)
    ensures forall i: nat :: Lists(config, i, address) ==> i < |config.people| && PersonFor(t, address) == Some(config.people[i])
  {
    hide Indexes, Finds;
    forall i: nat | Lists(config, i, address) ensures PersonFor(t, address) == Some(config.people[i]) {
      RegisteredFor(t, config, address, i);
    }
  }

  /**
    Which session a message of a person goes to, as the configuration has it: the one that lists
    the room; else in a group the `groups` session, and elsewhere the one that lists the person;
    else the `all` session.
   */
  predicate Receives(config: Config, i: nat, person: string, room: string, group: bool) {
    && i < |config.sessions|
    && var receive := config.sessions[i].receive;
       if !Unlisted(config, room) then room in RoomsListed(receive)
       else if group && HasKind(config, Groups) then receive == Groups
       else if !group && IsListed(config, person) then person in PeopleListed(receive)
       else receive == All
  }

  lemma KindFound(t: Tables, config: Config, i: nat)
    requires Derived(t, config) && i < |t.sessions|
    ensures t.all == Some(i) <==> t.sessions[i].receive == All
    ensures t.groups == Some(i) <==> t.sessions[i].receive == Groups
  {
    hide Indexes;
  }

  lemma OwnerMeans(t: Tables, config: Config, i: nat, person: string, room: string, members: seq<string>, shape: RoomShape)
    requires Derived(t, config) && InRange(t) && i < |t.sessions|
    ensures Owner(t, person, room, members, shape) == Some(i) <==>
            Receives(config, i, person, room, MakesGroup(PeopleAmong(t, members), shape))
  {
    SameSessions(t, config);
    hide Derived, Indexes, Finds, InRange, PeopleAmong, IsGroup, MakesGroup, HasKind, IsListed, Unlisted, PeopleListed, RoomsListed;
    UnlistedMeans(t, config, room);
    RoomListedBy(t, config, i, room);
    KindMeans(t, config);
    KindFound(t, config, i);
    IsListedMeans(t, config, person);
    ListedBy(t, config, i, person);
    GroupMeans(PeopleAmong(t, members), shape);
  }

  lemma SameSessions(t: Tables, config: Config)
    requires Derived(t, config)
    ensures t.sessions == config.sessions && t.bot == config.bot
  {
  }

  /** A message is routed to a session exactly if it comes from a person the session receives it from. */
  lemma RoutedExactly(t: Tables, config: Config, i: nat, sender: string, room: string, members: seq<string>, shape: RoomShape)
    requires Derived(t, config) && InRange(t) && i < |t.sessions|
    ensures RoutedTo(t, i, sender, room, members, shape) <==>
            && sender != config.bot
            && exists k: nat :: Lists(config, k, sender)
                                && Receives(config, i, config.people[k].name, room, GroupRoom(config, members, shape))
  {
    SameSessions(t, config);
    hide Derived, Indexes, Finds, InRange, PersonFor, PeopleAmong, MakesGroup, GroupRoom, Lists, Receives, RoutedTo, Owner;
    GroupRoomMeans(t, config, members, shape);
    RoutedToMeans(t, config, i, sender, room, members, shape);
    RegisteredMeans(t, config, sender);
    OnePerson(t, config, sender);
    if PersonFor(t, sender).Some? {
      OwnerMeans(t, config, i, PersonFor(t, sender).value.name, room, members, shape);
    }
  }

  // ------------------------------------------------------------------------------------
  // Who may read and write, in terms of the configuration

  /** A person of this name is in the room, under one of the addresses listed. */
  ghost predicate Present(config: Config, members: seq<string>, name: string) {
    exists m, k: nat :: m in members && m != config.bot && Lists(config, k, m) && config.people[k].name == name
  }

  /** Everyone in the room but the bot is listed. */
  ghost predicate AllKnown(config: Config, members: seq<string>) {
    forall m :: m in members && m != config.bot ==> exists k: nat :: Lists(config, k, m)
  }

  /** Two different people are there, or the room is named and not direct. */
  ghost predicate GroupRoom(config: Config, members: seq<string>, shape: RoomShape) {
    || (exists p, q :: Present(config, members, p) && Present(config, members, q) && p != q)
    || (!shape.direct && shape.named)
  }

  /** The session's own rooms: those it lists, and those of registered people it receives from. */
  ghost predicate Owns(config: Config, receive: Receive, room: string, members: seq<string>, shape: RoomShape) {
    || room in RoomsListed(receive)
    || (&& (exists p :: Present(config, members, p)) && AllKnown(config, members)
        && match receive
           case All => true
           case Groups => GroupRoom(config, members, shape)
           case Selective(people, _) =>
             !GroupRoom(config, members, shape) && forall p :: Present(config, members, p) ==> p in people)
  }

  lemma PresentMeans(t: Tables, config: Config, members: seq<string>)
    requires Derived(t, config) && InRange(t)
    ensures forall p :: p in PeopleAmong(t, members) <==> Present(config, members, p)
    ensures AllRegistered(t, members) <==> AllKnown(config, members)
  {
    SameSessions(t, config);
    hide Derived, Indexes, Finds, InRange, PersonFor, Lists;
    forall m | m in members
      ensures PersonFor(t, m).Some? <==> exists k: nat :: Lists(config, k, m)
      ensures forall k: nat :: Lists(config, k, m) ==> k < |config.people| && PersonFor(t, m) == Some(config.people[k])
    {
      RegisteredMeans(t, config, m);
      OnePerson(t, config, m);
    }
    forall p | Present(config, members, p) ensures p in PeopleAmong(t, members) {
      var m, k: nat :| m in members && m != config.bot && Lists(config, k, m) && config.people[k].name == p;
    }
    forall p | p in PeopleAmong(t, members) ensures Present(config, members, p) {
      var m :| m in members && m != t.bot && PersonFor(t, m).Some? && PersonFor(t, m).value.name == p;
      var k: nat :| Lists(config, k, m);
    }
  }

  lemma GroupRoomMeans(t: Tables, config: Config, members: seq<string>, shape: RoomShape)
    requires Derived(t, config) && InRange(t)
    ensures MakesGroup(PeopleAmong(t, members), shape) <==> GroupRoom(config, members, shape)
    ensures IsGroup(|PeopleAmong(t, members)|, shape) <==> GroupRoom(config, members, shape)
  {
    PresentMeans(t, config, members);
    GroupMeans(PeopleAmong(t, members), shape);
    hide Derived, Indexes, Finds, InRange, PeopleAmong, Present, IsGroup;
  }

  lemma OwnsMeans(t: Tables, config: Config, i: nat, room: string, members: seq<string>, shape: RoomShape)
    requires Derived(t, config) && InRange(t) && i < |t.sessions|
    ensures OwnsRoom(t, i, room, members, shape) <==> Owns(config, t.sessions[i].receive, room, members, shape)
  {
    SameSessions(t, config);
    PresentMeans(t, config, members);
    GroupRoomMeans(t, config, members, shape);
    RoomListedBy(t, config, i, room);
    hide Derived, Indexes, Finds, InRange, PeopleAmong, AllRegistered, Present, AllKnown, GroupRoom, IsGroup, RoomsListed;
  }

  lemma NameKnown(t: Tables, config: Config, name: string)
    requires Derived(t, config)
    ensures name in t.byName <==> exists i :: 0 <= i < |config.sessions| && config.sessions[i].name == name
    ensures name in t.byName ==> t.byName[name] < |config.sessions| && config.sessions[t.byName[name]].name == name
  {
    hide Finds;
    forall i | 0 <= i < |config.sessions| ensures config.sessions[i].name in t.byName {
      NamedSession(t, config, i);
    }
    if name in t.byName {
      assert name in NameOf(t.sessions)(t.byName[name]);
    }
  }

  /**
    For every session and every room: reading is granted if and only if it is the `all` session or
    the room is its own, and writing if and only if it may write anywhere or the room is its own.
    What a session may write never matters for what it may read.
   */
  lemma RightsExactly(t: Tables, config: Config, i: nat, room: string, members: seq<string>, shape: RoomShape)
    requires Derived(t, config) && InRange(t) && i < |config.sessions|
    ensures var s := config.sessions[i];
            && MayRead(t, s.name, room, members, shape)
               == (if s.receive == All || Owns(config, s.receive, room, members, shape) then Granted else NotAllowed)
            && MaySend(t, s.name, room, members, shape)
               == (if s.send == Any || Owns(config, s.receive, room, members, shape) then Granted else NotAllowed)
  {
    SameSessions(t, config);
    NamedSession(t, config, i);
    KindFound(t, config, i);
    OwnsMeans(t, config, i, room, members, shape);
    hide Derived, Indexes, Finds, OwnsRoom, Owns;
  }

  /** And a name that no session has is answered as such. */
  lemma UnknownExactly(t: Tables, config: Config, name: string, room: string, members: seq<string>, shape: RoomShape)
    requires Derived(t, config) && InRange(t)
    ensures MayRead(t, name, room, members, shape) == UnknownSession
            <==> forall i :: 0 <= i < |config.sessions| ==> config.sessions[i].name != name
    ensures MaySend(t, name, room, members, shape) == UnknownSession
            <==> forall i :: 0 <= i < |config.sessions| ==> config.sessions[i].name != name
  {
    NameKnown(t, config, name);
    hide Derived, Indexes, Finds, OwnsRoom;
  }
}
