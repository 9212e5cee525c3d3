/** Resolving Beeper users to participants: phone before email before bare ID, with merges when
    richer metadata turns up, over any sequence of calls and runs. */
module BeeperParticipants {
  import opened Options

  type Pid = nat
  type UserId = string

  datatype Row = Row(email: Option<string>, phone: Option<string>)

  /** The participant tables. `root` records for every ID ever handed out the row its history is
      in now; a merge moves it. */
  datatype Db = Db(rows: map<Pid, Row>, byPhone: map<string, Pid>, byEmail: map<string, Pid>,
                   idents: map<string, Pid>, next: Pid, root: map<Pid, Pid>)

  datatype User = User(id: UserId, phone: string, email: string)

  datatype Rich = Rich(pid: Pid, byPhone: bool)

  datatype World = World(db: Db, rich: map<UserId, Rich>, fallback: map<UserId, Pid>)

  const EMPTY_DB := Db(map[], map[], map[], map[], 1, map[])

  // ---- The store ----

  function Insert(db: Db, row: Row): Db {
    db.(rows := db.rows[db.next := row],
    byPhone := if row.phone.Some? then db.byPhone[row.phone.value := db.next] else db.byPhone,
    byEmail := if row.email.Some? then db.byEmail[row.email.value := db.next] else db.byEmail,
    root := db.root[db.next := db.next],
    next := db.next + 1)
  }

  function InsertIdentOrIgnore(db: Db, value: string, pid: Pid): Db {
    if value in db.idents then db else db.(idents := db.idents[value := pid])
  }

  /** The row of a phone number: the one it has, or the one the upsert is about to make. */
  function PhoneRow(db: Db, phone: string): Pid {
    if phone in db.byPhone then db.byPhone[phone] else db.next
  }

  function RowByPhone(db: Db, phone: string): Db {
    if phone in db.byPhone then db else Insert(db, Row(None, Some(phone)))
  }

  /** The upsert on the phone number, then the number itself as an identifier if it is not one yet. */
  function EnsureByPhone(db: Db, phone: string): Db {
    InsertIdentOrIgnore(RowByPhone(db, phone), phone, PhoneRow(db, phone))
  }

  function EmailRow(db: Db, email: string): Pid {
    if email in db.byEmail then db.byEmail[email] else db.next
  }

  function EnsureByEmail(db: Db, email: string): Db {
    if email in db.byEmail then db else Insert(db, Row(Some(email), None))
  }

  function IdentRow(db: Db, id: UserId): Pid {
    if id in db.idents then db.idents[id] else db.next
  }

  function EnsureByIdentifier(db: Db, id: UserId): Db {
    if id in db.idents then db
    else var made := Insert(db, Row(None, None)); made.(idents := made.idents[id := db.next])
  }

  /** The row an identifier points at, 0 for none. */
  function Owner(db: Db, id: UserId): Pid {
    if id in db.idents && db.idents[id] in db.rows then db.idents[id] else 0
  }

  predicate HasPhone(db: Db, p: Pid) {
    p in db.rows && db.rows[p].phone.Some?
  }

  function Or(a: Option<string>, b: Option<string>): Option<string> {
    if a.Some? then a else b
  }

  /** The absorbed row's contact fills gaps of the survivor; what does not fit is released. */
  function Release(index: map<string, Pid>, taken: Option<string>, kept: Option<string>, into: Pid): map<string, Pid> {
    if taken.None? then index
    else if kept.Some? then index - {taken.value}
    else index[taken.value := into]
  }

  function Repoint<K>(m: map<K, Pid>, from: Pid, to: Pid): map<K, Pid> {
    map k | k in m :: if m[k] == from then to else m[k]
  }

  function Merge(db: Db, from: Pid, to: Pid): Db {
    if from == to || from !in db.rows || to !in db.rows then db
    else
      var a, b := db.rows[from], db.rows[to];
      db.(rows := (db.rows - {from})[to := Row(Or(b.email, a.email), Or(b.phone, a.phone))],
      byPhone := Release(db.byPhone, a.phone, b.phone, to),
      byEmail := Release(db.byEmail, a.email, b.email, to),
      idents := Repoint(db.idents, from, to),
      root := Repoint(db.root, from, to))
  }

  // ---- The resolver ----

  predicate IsPhone(s: string) {
    |s| > 0 && s[0] == '+'
  }

  predicate IsEmail(s: string) {
    '@' in s
  }

  function Lower(s: string): string {
    seq(|s|, i requires 0 <= i < |s| => if 'A' <= s[i] <= 'Z' then s[i] - 'A' + 'a' else s[i])
  }

  /** recordRich's merge: a prior owner without a phone is the same user seen with weaker metadata. */
  function Folded(db: Db, id: UserId, pid: Pid): Db {
    var prev := Owner(db, id);
    if prev != 0 && prev != pid && !HasPhone(db, prev) then Merge(db, prev, pid) else db
  }

  function Recorded(db: Db, w: World, id: UserId, pid: Pid, byPhone: bool): World {
    World(db.(idents := db.idents[id := pid]), w.rich[id := Rich(pid, byPhone)], w.fallback - {id})
  }

  function RichRecorded(w: World, id: UserId, pid: Pid, byPhone: bool): World {
    Recorded(Folded(w.db, id, pid), w, id, pid, byPhone)
  }

  /** A call's answer and the world it leaves. */
  datatype Outcome = Outcome(world: World, pid: Pid)

  function IDResolution(w: World, id: UserId): Outcome {
    if id == "" then Outcome(w, 0)
    else if id in w.rich then Outcome(w, w.rich[id].pid)
    else if id in w.fallback then Outcome(w, w.fallback[id])
    else
      var pid := IdentRow(w.db, id);
      Outcome(World(EnsureByIdentifier(w.db, id), w.rich, w.fallback[id := pid]), pid)
  }

  /** The row of the phone, with an earlier email-based resolution of this run merged into it. */
  function Upgraded(w: World, id: UserId, phone: string): Db {
    var db, pid := EnsureByPhone(w.db, phone), PhoneRow(w.db, phone);
    if id in w.rich && w.rich[id].pid != pid then Merge(db, w.rich[id].pid, pid) else db
  }

  function PhoneResolution(w: World, id: UserId, phone: string): Outcome {
    var pid := PhoneRow(w.db, phone);
    Outcome(RichRecorded(w.(db := Upgraded(w, id, phone)), id, pid, true), pid)
  }

  function EmailResolution(w: World, id: UserId, email: string): Outcome {
    var prev := Owner(w.db, id);
    if prev != 0 && HasPhone(w.db, prev) then
      Outcome(World(w.db, w.rich[id := Rich(prev, true)], w.fallback - {id}), prev)
    else
      var pid := EmailRow(w.db, email);
      Outcome(RichRecorded(w.(db := EnsureByEmail(w.db, email)), id, pid, false), pid)
  }

  function UserResolution(w: World, u: User): Outcome {
    if u.id == "" then Outcome(w, 0)
    else if u.id in w.rich && (w.rich[u.id].byPhone || !IsPhone(u.phone)) then Outcome(w, w.rich[u.id].pid)
    else if IsPhone(u.phone) then PhoneResolution(w, u.id, u.phone)
    else if IsEmail(u.email) then EmailResolution(w, u.id, Lower(u.email))
    else IDResolution(w, u.id)
  }

  // ---- Who is who ----

  /** The contact data Beeper may show: at most one phone per user, no phone or email of two users. */
  datatype People = People(phoneOf: map<UserId, string>, emailOwner: map<string, UserId>)

  ghost predicate Distinct(people: People) {
    && (forall u, v | u in people.phoneOf && v in people.phoneOf && people.phoneOf[u] == people.phoneOf[v] :: u == v)
    && (forall u | u in people.phoneOf :: IsPhone(people.phoneOf[u]))
  }

  /** A user record shows this user's own contacts only; user IDs do not look like phone numbers. */
  predicate Shows(people: People, u: User) {
    && !IsPhone(u.id)
    && (IsPhone(u.phone) ==> u.id in people.phoneOf && people.phoneOf[u.id] == u.phone)
    && (!IsPhone(u.phone) && IsEmail(u.email) ==> Lower(u.email) in people.emailOwner && people.emailOwner[Lower(u.email)] == u.id)
  }

  /** Something in the tables ties row p to user u. */
  predicate Touches(db: Db, people: People, p: Pid, u: UserId)
    requires p in db.rows
  {
    || (!IsPhone(u) && u in db.idents && db.idents[u] == p)
    || (u in people.phoneOf && db.rows[p].phone == Some(people.phoneOf[u]))
    || (db.rows[p].email.Some? && db.rows[p].email.value in people.emailOwner && people.emailOwner[db.rows[p].email.value] == u)
  }

  ghost predicate RowsOk(db: Db) {
    && db.next > 0
    && (forall p | p in db.rows :: 0 < p < db.next && p in db.root && db.root[p] == p)
    && (forall p | p in db.root :: 0 < p < db.next && db.root[p] in db.rows)
    && (forall x | x in db.idents :: db.idents[x] in db.rows)
  }

  ghost predicate PhonesOk(db: Db) {
    && (forall x | x in db.byPhone :: db.byPhone[x] in db.rows && db.rows[db.byPhone[x]].phone == Some(x))
    && (forall p | p in db.rows && db.rows[p].phone.Some? :: db.rows[p].phone.value in db.byPhone && db.byPhone[db.rows[p].phone.value] == p)
  }

  ghost predicate EmailsOk(db: Db) {
    && (forall x | x in db.byEmail :: db.byEmail[x] in db.rows && db.rows[db.byEmail[x]].email == Some(x))
    && (forall p | p in db.rows && db.rows[p].email.Some? :: db.rows[p].email.value in db.byEmail && db.byEmail[db.rows[p].email.value] == p)
  }

  ghost predicate TablesOk(db: Db) {
    RowsOk(db) && PhonesOk(db) && EmailsOk(db)
  }

  /** No row is tied to two users, and a row tied to a user carries no one else's phone. */
  ghost predicate OwnedOk(db: Db, people: People) {
    && (forall p, u, v | p in db.rows && Touches(db, people, p, u) && Touches(db, people, p, v) :: u == v)
    && (forall p, u | p in db.rows && Touches(db, people, p, u) && db.rows[p].phone.Some? ::
          u in people.phoneOf && db.rows[p].phone == Some(people.phoneOf[u]))
  }

  ghost predicate CachesOk(w: World) {
    && (forall u | u in w.rich :: !IsPhone(u) && u in w.db.idents && w.db.idents[u] == w.rich[u].pid)
    && (forall u | u in w.rich && w.rich[u].byPhone :: w.rich[u].pid in w.db.rows && w.db.rows[w.rich[u].pid].phone.Some?)
    && (forall u | u in w.fallback :: !IsPhone(u) && u in w.db.idents && w.db.idents[u] == w.fallback[u])
  }

  ghost predicate WorldOk(w: World, people: People) {
    Distinct(people) && TablesOk(w.db) && OwnedOk(w.db, people) && CachesOk(w)
  }

  /** How well the participant a user resolves to is known. */
  function Strength(db: Db, u: UserId): nat {
    if u !in db.idents || db.idents[u] !in db.rows then 0
    else
      var row := db.rows[db.idents[u]];
      if row.phone.Some? then 3 else if row.email.Some? then 2 else 1
  }

  /** What one store operation may do to the rest of the world. */
  ghost predicate Grows(db: Db, db': Db) {
    && (forall u | u in db.idents :: u in db'.idents)
    && (forall u | u in db.idents && !IsPhone(u) :: Strength(db, u) <= Strength(db', u))
    && (forall p, u | p in db.root && u in db.idents && !IsPhone(u) && db.root[p] == db.idents[u] ::
          p in db'.root && db'.root[p] == db'.idents[u])
  }

  // ---- The store operations keep the tables in order ----

  lemma InsertTables(db: Db, row: Row)
    requires TablesOk(db)
    requires row.phone.Some? ==> row.phone.value !in db.byPhone
    requires row.email.Some? ==> row.email.value !in db.byEmail
    ensures TablesOk(Insert(db, row))
  {
    var db' := Insert(db, row);
    assert RowsOk(db');
    assert PhonesOk(db');
    assert EmailsOk(db');
  }

  lemma InsertGrows(db: Db, row: Row)
    requires RowsOk(db)
    ensures Grows(db, Insert(db, row))
  {
  }

  /** Adding an identifier nobody had. */
  lemma NewIdentGrows(db: Db, x: string, pid: Pid)
    requires x !in db.idents
    ensures Grows(db, db.(idents := db.idents[x := pid]))
  {
  }

  lemma GrowsIsTransitive(a: Db, b: Db, c: Db)
    requires Grows(a, b) && Grows(b, c)
    ensures Grows(a, c)
  {
  }

  lemma InsertOwned(db: Db, people: People, row: Row)
    requires Distinct(people) && TablesOk(db) && OwnedOk(db, people)
    requires row.phone.None? || row.email.None?
    ensures OwnedOk(Insert(db, row), people)
  {
    var db' := Insert(db, row);
    assert forall p, u | p in db.rows :: Touches(db', people, p, u) == Touches(db, people, p, u);
    assert forall x | x in db'.idents :: db'.idents[x] != db.next;
  }

  /** Pointing a user's identifier at a row tied to no one else. */
  lemma SetIdent(db: Db, people: People, u: UserId, pid: Pid)
    requires TablesOk(db) && OwnedOk(db, people) && pid in db.rows && !IsPhone(u)
    requires forall v | Touches(db, people, pid, v) :: v == u
    requires db.rows[pid].phone.Some? ==> u in people.phoneOf && db.rows[pid].phone == Some(people.phoneOf[u])
    ensures var db' := db.(idents := db.idents[u := pid]); TablesOk(db') && OwnedOk(db', people)
  {
    var db' := db.(idents := db.idents[u := pid]);
    assert forall p, v | p in db.rows && Touches(db', people, p, v) :: Touches(db, people, p, v) || (p == pid && v == u);
  }

  /** A phone number's own identifier row ties no user to anything. */
  lemma PhoneIdent(db: Db, people: People, phone: string, pid: Pid)
    requires TablesOk(db) && OwnedOk(db, people) && pid in db.rows && IsPhone(phone)
    ensures var db' := InsertIdentOrIgnore(db, phone, pid); TablesOk(db') && OwnedOk(db', people)
  {
    var db' := InsertIdentOrIgnore(db, phone, pid);
    assert forall p, v | p in db.rows && Touches(db', people, p, v) :: Touches(db, people, p, v);
  }

  /** db' is db with more rows and identifiers, and row pid is among them. */
  ghost predicate Extends(db: Db, db': Db, pid: Pid) {
    && pid in db'.rows
    && (forall x | x in db.idents :: x in db'.idents && db'.idents[x] == db.idents[x])
    && (forall p | p in db.rows :: p in db'.rows && db'.rows[p] == db.rows[p])
  }

  /** What an upsert promises: everything that was there stays, in order, and row pid is there too. */
  ghost predicate Upserted(db: Db, db': Db, people: People, pid: Pid) {
    TablesOk(db') && OwnedOk(db', people) && Grows(db, db') && Extends(db, db', pid)
  }

  lemma RowByPhoneKeeps(db: Db, people: People, phone: string)
    requires Distinct(people) && TablesOk(db) && OwnedOk(db, people)
    ensures Upserted(db, RowByPhone(db, phone), people, PhoneRow(db, phone))
    ensures RowByPhone(db, phone).rows[PhoneRow(db, phone)].phone == Some(phone)
  {
    if phone !in db.byPhone {
      InsertTables(db, Row(None, Some(phone)));
      InsertGrows(db, Row(None, Some(phone)));
      InsertOwned(db, people, Row(None, Some(phone)));
    }
  }

  lemma AddIdentExtends(db: Db, mid: Db, x: string, pid: Pid)
    requires Grows(db, mid) && Extends(db, mid, pid)
    ensures Grows(db, InsertIdentOrIgnore(mid, x, pid)) && Extends(db, InsertIdentOrIgnore(mid, x, pid), pid)
  {
    if x !in mid.idents {
      NewIdentGrows(mid, x, pid);
      GrowsIsTransitive(db, mid, InsertIdentOrIgnore(mid, x, pid));
    }
  }

  lemma EnsureByPhoneKeeps(db: Db, people: People, phone: string)
    requires Distinct(people) && TablesOk(db) && OwnedOk(db, people) && IsPhone(phone)
    ensures Upserted(db, EnsureByPhone(db, phone), people, PhoneRow(db, phone))
    ensures EnsureByPhone(db, phone).rows[PhoneRow(db, phone)].phone == Some(phone)
  {
    RowByPhoneKeeps(db, people, phone);
    PhoneIdent(RowByPhone(db, phone), people, phone, PhoneRow(db, phone));
    AddIdentExtends(db, RowByPhone(db, phone), phone, PhoneRow(db, phone));
  }

  lemma EnsureByEmailKeeps(db: Db, people: People, email: string)
    requires Distinct(people) && TablesOk(db) && OwnedOk(db, people)
    ensures Upserted(db, EnsureByEmail(db, email), people, EmailRow(db, email))
    ensures EnsureByEmail(db, email).rows[EmailRow(db, email)].email == Some(email)
  {
    if email !in db.byEmail {
      InsertTables(db, Row(Some(email), None));
      InsertGrows(db, Row(Some(email), None));
      InsertOwned(db, people, Row(Some(email), None));
    }
  }

  lemma EnsureByIdentifierKeeps(db: Db, people: People, u: UserId)
    requires Distinct(people) && TablesOk(db) && OwnedOk(db, people) && !IsPhone(u)
    ensures Upserted(db, EnsureByIdentifier(db, u), people, IdentRow(db, u))
    ensures u in EnsureByIdentifier(db, u).idents && EnsureByIdentifier(db, u).idents[u] == IdentRow(db, u)
  {
    if u !in db.idents {
      var made := Insert(db, Row(None, None));
      InsertTables(db, Row(None, None));
      InsertGrows(db, Row(None, None));
      InsertOwned(db, people, Row(None, None));
      assert forall v | Touches(made, people, db.next, v) :: v == u;
      SetIdent(made, people, u, db.next);
      assert u !in made.idents;
      AddIdentExtends(db, made, u, db.next);
    }
  }

  // ---- Merging two rows of one user ----

  lemma MergeTables(db: Db, from: Pid, to: Pid)
    requires TablesOk(db) && from in db.rows && to in db.rows && from != to
    requires db.rows[from].phone.None?
    ensures TablesOk(Merge(db, from, to))
  {
    MergeRows(db, from, to);
    MergePhones(db, from, to);
    MergeEmails(db, from, to);
  }

  lemma MergeRows(db: Db, from: Pid, to: Pid)
    requires RowsOk(db) && from in db.rows && to in db.rows && from != to
    ensures RowsOk(Merge(db, from, to))
  {
  }

  lemma MergePhones(db: Db, from: Pid, to: Pid)
    requires PhonesOk(db) && from in db.rows && to in db.rows && from != to
    requires db.rows[from].phone.None?
    ensures PhonesOk(Merge(db, from, to))
  {
  }

  lemma MergeEmails(db: Db, from: Pid, to: Pid)
    requires EmailsOk(db) && from in db.rows && to in db.rows && from != to
    ensures EmailsOk(Merge(db, from, to))
  {
  }

  lemma MergeOwned(db: Db, people: People, from: Pid, to: Pid, u: UserId)
    requires TablesOk(db) && OwnedOk(db, people) && from in db.rows && to in db.rows && from != to
    requires Touches(db, people, from, u) && Touches(db, people, to, u)
    requires db.rows[from].phone.None?
    ensures OwnedOk(Merge(db, from, to), people)
  {
    var db' := Merge(db, from, to);
    forall p, v | p in db'.rows && Touches(db', people, p, v)
      ensures if p == to then Touches(db, people, from, v) || Touches(db, people, to, v) else Touches(db, people, p, v)
    {
    }
  }

  lemma MergeGrows(db: Db, people: People, from: Pid, to: Pid)
    requires TablesOk(db) && from in db.rows && to in db.rows && from != to
    requires db.rows[from].phone.None?
    ensures Grows(db, Merge(db, from, to))
  {
  }

  // ---- The resolver keeps the world in order ----

  /** Everything a resolution promises about user u: whoever resolves later finds the row all the
      IDs handed out for u are now part of, and no user gets weaker. */
  ghost predicate Resolved(w: World, w': World, people: People, u: UserId, pid: Pid) {
    && WorldOk(w', people) && Grows(w.db, w'.db)
    && u in w'.db.idents && w'.db.idents[u] == pid
  }

  lemma ResolveIDKeeps(w: World, people: People, id: UserId)
    requires WorldOk(w, people) && id != "" && !IsPhone(id)
    ensures Resolved(w, IDResolution(w, id).world, people, id, IDResolution(w, id).pid)
  {
    if id !in w.rich && id !in w.fallback {
      EnsureByIdentifierKeeps(w.db, people, id);
    }
  }

  /** Identifiers in the caches survive operations that keep everyone else's row. */
  ghost predicate OthersStay(db: Db, db': Db, u: UserId) {
    forall v | v != u && !IsPhone(v) && v in db.idents ::
      v in db'.idents && db'.idents[v] == db.idents[v] && (db.idents[v] in db.rows ==>
        db.idents[v] in db'.rows && (db.rows[db.idents[v]].phone.Some? ==> db'.rows[db.idents[v]].phone.Some?))
  }

  lemma MergeOthersStay(db: Db, people: People, from: Pid, to: Pid, u: UserId)
    requires TablesOk(db) && OwnedOk(db, people) && from in db.rows && to in db.rows && from != to
    requires Touches(db, people, from, u) && Touches(db, people, to, u)
    ensures OthersStay(db, Merge(db, from, to), u)
  {
    forall v | v != u && !IsPhone(v) && v in db.idents
      ensures db.idents[v] != from && db.idents[v] != to
    {
      assert Touches(db, people, db.idents[v], v);
    }
  }

  /** The caches are right for everyone but u. */
  ghost predicate OthersCached(w: World, u: UserId) {
    && (forall v | v != u && v in w.rich ::
          && !IsPhone(v) && v in w.db.idents && w.db.idents[v] == w.rich[v].pid && w.rich[v].pid in w.db.rows
          && (w.rich[v].byPhone ==> w.db.rows[w.rich[v].pid].phone.Some?))
    && (forall v | v != u && v in w.fallback :: !IsPhone(v) && v in w.db.idents && w.db.idents[v] == w.fallback[v])
  }

  /** recordRich: the user's current row, if it has no phone, is folded into row pid. */
  lemma RecordRichKeeps(w: World, w': World, people: People, u: UserId, pid: Pid, byPhone: bool)
    requires Distinct(people) && TablesOk(w.db) && OwnedOk(w.db, people) && !IsPhone(u)
    requires pid in w.db.rows && Touches(w.db, people, pid, u)
    requires byPhone ==> HasPhone(w.db, pid)
    requires u in w.db.idents && HasPhone(w.db, w.db.idents[u]) ==> w.db.idents[u] == pid
    requires OthersCached(w, u)
    requires w' == RichRecorded(w, u, pid, byPhone)
    ensures Resolved(w, w', people, u, pid)
  {
    var db := Folded(w.db, u, pid);
    FoldedKeeps(w.db, db, people, pid, u);
    RecordedOk(w.db, db, w, w', people, u, pid, byPhone);
  }

  lemma FoldedKeeps(db: Db, db': Db, people: People, pid: Pid, u: UserId)
    requires Distinct(people) && TablesOk(db) && OwnedOk(db, people) && !IsPhone(u)
    requires pid in db.rows && Touches(db, people, pid, u)
    requires u in db.idents && HasPhone(db, db.idents[u]) ==> db.idents[u] == pid
    requires db' == Folded(db, u, pid)
    ensures TablesOk(db') && OwnedOk(db', people) && Grows(db, db') && OthersStay(db, db', u)
    ensures pid in db'.rows && (u in db'.idents ==> db'.idents[u] == pid) && Touches(db', people, pid, u)
    ensures db'.rows[pid].phone == db.rows[pid].phone
  {
    if u in db.idents && db.idents[u] != pid {
      FoldKeeps(db, people, db.idents[u], pid, u);
    }
  }

  lemma FoldKeeps(db: Db, people: People, prev: Pid, pid: Pid, u: UserId)
    requires Distinct(people) && TablesOk(db) && OwnedOk(db, people) && !IsPhone(u)
    requires pid in db.rows && Touches(db, people, pid, u) && u in db.idents && db.idents[u] == prev != pid
    requires db.rows[prev].phone.None?
    ensures var db' := Merge(db, prev, pid);
      && TablesOk(db') && OwnedOk(db', people) && Grows(db, db') && OthersStay(db, db', u)
      && u in db'.idents && db'.idents[u] == pid && db'.rows[pid].phone == db.rows[pid].phone
  {
    assert Touches(db, people, prev, u);
    MergeTables(db, prev, pid);
    MergeOwned(db, people, prev, pid, u);
    MergeGrows(db, people, prev, pid);
    MergeOthersStay(db, people, prev, pid, u);
  }

  lemma RecordedOk(before: Db, db: Db, w: World, w': World, people: People, u: UserId, pid: Pid, byPhone: bool)
    requires Distinct(people) && TablesOk(db) && OwnedOk(db, people) && !IsPhone(u)
    requires Grows(before, db) && OthersStay(before, db, u)
    requires pid in db.rows && (u in db.idents ==> db.idents[u] == pid) && Touches(db, people, pid, u)
    requires byPhone ==> db.rows[pid].phone.Some?
    requires w.db == before && OthersCached(w, u)
    requires w' == Recorded(db, w, u, pid, byPhone)
    ensures Resolved(w, w', people, u, pid)
  {
    SetIdent(db, people, u, pid);
    var db' := db.(idents := db.idents[u := pid]);
    if u !in db.idents {
      NewIdentGrows(db, u, pid);
      GrowsIsTransitive(before, db, db');
    } else {
      assert db' == db;
    }
    RecordedCaches(before, db, w, u, pid, byPhone);
  }

  lemma RecordedCaches(before: Db, db: Db, w: World, u: UserId, pid: Pid, byPhone: bool)
    requires OthersStay(before, db, u) && !IsPhone(u)
    requires pid in db.rows && (byPhone ==> db.rows[pid].phone.Some?)
    requires w.db == before && OthersCached(w, u)
    ensures CachesOk(Recorded(db, w, u, pid, byPhone))
  {
  }

  lemma StayCached(w: World, db: Db, u: UserId)
    requires RowsOk(w.db) && CachesOk(w) && OthersStay(w.db, db, u)
    ensures OthersCached(w.(db := db), u)
  {
  }

  /** A row of the user's that has a phone is the row of the user's phone. */
  lemma PhoneIsTheirs(db: Db, people: People, u: UserId, p: Pid, pid: Pid, phone: string)
    requires TablesOk(db) && OwnedOk(db, people) && u in people.phoneOf && people.phoneOf[u] == phone
    requires p in db.rows && Touches(db, people, p, u) && HasPhone(db, p)
    requires pid in db.rows && db.rows[pid].phone == Some(phone)
    ensures p == pid
  {
  }

  lemma UpgradedKeeps(w: World, db: Db, people: People, u: UserId, phone: string, pid: Pid)
    requires WorldOk(w, people) && !IsPhone(u) && IsPhone(phone)
    requires u in people.phoneOf && people.phoneOf[u] == phone
    requires db == Upgraded(w, u, phone) && pid == PhoneRow(w.db, phone)
    ensures TablesOk(db) && OwnedOk(db, people) && Grows(w.db, db) && OthersStay(w.db, db, u)
    ensures pid in db.rows && db.rows[pid].phone == Some(phone)
  {
    var mid := EnsureByPhone(w.db, phone);
    EnsureByPhoneKeeps(w.db, people, phone);
    if u in w.rich && w.rich[u].pid != pid {
      var prev := w.rich[u].pid;
      assert Touches(mid, people, prev, u);
      if HasPhone(mid, prev) {
        PhoneIsTheirs(mid, people, u, prev, pid, phone);
      }
      FoldKeeps(mid, people, prev, pid, u);
      GrowsIsTransitive(w.db, mid, db);
    }
  }

  lemma ResolveByPhoneKeeps(w: World, w': World, people: People, u: UserId, phone: string, pid: Pid)
    requires WorldOk(w, people) && !IsPhone(u) && IsPhone(phone)
    requires u in people.phoneOf && people.phoneOf[u] == phone
    requires PhoneResolution(w, u, phone) == Outcome(w', pid)
    ensures Resolved(w, w', people, u, pid)
  {
    var db := Upgraded(w, u, phone);
    UpgradedKeeps(w, db, people, u, phone, pid);
    StayCached(w, db, u);
    if u in db.idents && HasPhone(db, db.idents[u]) {
      assert Touches(db, people, db.idents[u], u);
      PhoneIsTheirs(db, people, u, db.idents[u], pid, phone);
    }
    RecordRichKeeps(w.(db := db), w', people, u, pid, true);
    GrowsIsTransitive(w.db, db, w'.db);
  }

  lemma ResolveByEmailKeeps(w: World, w': World, people: People, u: UserId, email: string, pid: Pid)
    requires WorldOk(w, people) && !IsPhone(u)
    requires email in people.emailOwner && people.emailOwner[email] == u
    requires EmailResolution(w, u, email) == Outcome(w', pid)
    ensures Resolved(w, w', people, u, pid)
  {
    if Owner(w.db, u) == 0 || !HasPhone(w.db, Owner(w.db, u)) {
      var db := EnsureByEmail(w.db, email);
      EnsureByEmailKeeps(w.db, people, email);
      StayCached(w, db, u);
      RecordRichKeeps(w.(db := db), w', people, u, pid, false);
      GrowsIsTransitive(w.db, db, w'.db);
    }
  }

  lemma ResolveUserKeeps(w: World, w': World, people: People, u: User, pid: Pid)
    requires WorldOk(w, people) && Shows(people, u) && u.id != ""
    requires UserResolution(w, u) == Outcome(w', pid)
    ensures Resolved(w, w', people, u.id, pid)
  {
    if u.id in w.rich && (w.rich[u.id].byPhone || !IsPhone(u.phone)) {
    } else if IsPhone(u.phone) {
      ResolveByPhoneKeeps(w, w', people, u.id, u.phone, pid);
    } else if IsEmail(u.email) {
      ResolveByEmailKeeps(w, w', people, u.id, Lower(u.email), pid);
    } else {
      ResolveIDKeeps(w, people, u.id);
    }
  }

  // ---- Any sequence of calls, over any number of runs ----

  /** One thing that happens to the tables: a run starts with empty caches, the importer resolves a
      user or a bare ID, or another archive's import adds a phone or an email. */
  datatype Call = NewRun | ByUser(user: User) | ByID(id: UserId) | OtherPhone(phone: string) | OtherEmail(email: string)

  ghost predicate Allowed(people: People, c: Call) {
    match c
    case ByUser(u) => Shows(people, u)
    case ByID(id) => !IsPhone(id)
    case OtherPhone(phone) => IsPhone(phone)
    case _ => true
  }

  function After(w: World, c: Call): World {
    match c
    case NewRun => World(w.db, map[], map[])
    case ByUser(u) => UserResolution(w, u).world
    case ByID(id) => IDResolution(w, id).world
    case OtherPhone(phone) => w.(db := RowByPhone(w.db, phone))
    case OtherEmail(email) => w.(db := EnsureByEmail(w.db, email))
  }

  /** The ID the call hands out, and to whom. */
  function Answers(w: World, c: Call): set<(UserId, Pid)> {
    match c
    case ByUser(u) => if u.id == "" then {} else {(u.id, UserResolution(w, u).pid)}
    case ByID(id) => if id == "" then {} else {(id, IDResolution(w, id).pid)}
    case _ => {}
  }

  function Final(w: World, calls: seq<Call>): World
    decreases |calls|
  {
    if calls == [] then w else Final(After(w, calls[0]), calls[1..])
  }

  /** Every (user, ID) pair handed out along the way. */
  function Handed(w: World, calls: seq<Call>): set<(UserId, Pid)>
    decreases |calls|
  {
    if calls == [] then {} else Answers(w, calls[0]) + Handed(After(w, calls[0]), calls[1..])
  }

  /** Every ID handed out is now part of the row its user resolves to. */
  ghost predicate Together(db: Db, handed: set<(UserId, Pid)>) {
    forall a | a in handed ::
      !IsPhone(a.0) && a.0 in db.idents && a.1 in db.root && db.root[a.1] == db.idents[a.0]
  }

  lemma CallKeeps(w: World, w': World, people: People, c: Call)
    requires WorldOk(w, people) && Allowed(people, c) && w' == After(w, c)
    ensures WorldOk(w', people) && Grows(w.db, w'.db) && Together(w'.db, Answers(w, c))
  {
    match c
    case NewRun =>
    case ByUser(u) =>
      if u.id != "" {
        ResolveUserKeeps(w, w', people, u, UserResolution(w, u).pid);
      }
    case ByID(id) =>
      if id != "" {
        ResolveIDKeeps(w, people, id);
      }
    case OtherPhone(phone) =>
      RowByPhoneKeeps(w.db, people, phone);
    case OtherEmail(email) =>
      EnsureByEmailKeeps(w.db, people, email);
  }

  lemma GrowsKeepsTogether(db: Db, db': Db, handed: set<(UserId, Pid)>)
    requires Grows(db, db') && Together(db, handed)
    ensures Together(db', handed)
  {
  }

  lemma {:induction false} CallsKeep(w: World, people: People, calls: seq<Call>, handed: set<(UserId, Pid)>)
    requires WorldOk(w, people) && Together(w.db, handed)
    requires forall c | c in calls :: Allowed(people, c)
    ensures WorldOk(Final(w, calls), people) && Grows(w.db, Final(w, calls).db)
    ensures Together(Final(w, calls).db, handed + Handed(w, calls))
    decreases |calls|
  {
    if calls == [] {
      assert handed + Handed(w, calls) == handed;
    } else {
      var next := After(w, calls[0]);
      CallKeeps(w, next, people, calls[0]);
      GrowsKeepsTogether(w.db, next.db, handed);
      CallsKeep(next, people, calls[1..], handed + Answers(w, calls[0]));
      GrowsIsTransitive(w.db, next.db, Final(next, calls[1..]).db);
      assert handed + Handed(w, calls) == handed + Answers(w, calls[0]) + Handed(next, calls[1..]);
    }
  }

  /** Main result: over any calls in any number of runs, from any archive in order, all the IDs
      handed out for one user end up merged into one row, which is no other user's. */
  lemma NeverForks(w: World, people: People, calls: seq<Call>, u: UserId, p: Pid, q: Pid)
    requires WorldOk(w, people) && forall c | c in calls :: Allowed(people, c)
    requires (u, p) in Handed(w, calls) && (u, q) in Handed(w, calls)
    ensures p in Final(w, calls).db.root && q in Final(w, calls).db.root
    ensures Final(w, calls).db.root[p] == Final(w, calls).db.root[q]
    ensures forall v, r | (v, r) in Handed(w, calls) && v != u ::
      r in Final(w, calls).db.root && Final(w, calls).db.root[r] != Final(w, calls).db.root[p]
  {
    CallsKeep(w, people, calls, {});
    var db := Final(w, calls).db;
    assert {} + Handed(w, calls) == Handed(w, calls);
    forall v, r | (v, r) in Handed(w, calls)
      ensures r in db.root && v in db.idents && db.root[r] == db.idents[v] && Touches(db, people, db.idents[v], v)
    {
      assert (v, r).0 == v && (v, r).1 == r;
    }
  }

  /** Main result: no call weakens what is known of any user. */
  lemma StrengthNeverDrops(w: World, people: People, calls: seq<Call>, u: UserId)
    requires WorldOk(w, people) && (forall c | c in calls :: Allowed(people, c)) && !IsPhone(u)
    ensures Strength(w.db, u) <= Strength(Final(w, calls).db, u)
  {
    CallsKeep(w, people, calls, {});
  }

  /** Without the one-phone rule a user forks: a changed number in a later run starts a second row,
      and the phone-bearing first row is left alone on purpose. */
  lemma ChangedNumberForks()
    ensures var calls := [ByUser(User("u", "+1", "")), NewRun, ByUser(User("u", "+2", ""))];
      var start := World(EMPTY_DB, map[], map[]);
      && Handed(start, calls) == {("u", 1), ("u", 2)}
      && Final(start, calls).db.root == map[1 := 1, 2 := 2]
  {
    var start := World(EMPTY_DB, map[], map[]);
    var first, run, second := ByUser(User("u", "+1", "")), NewRun, ByUser(User("u", "+2", ""));
    var w1 := After(start, first);
    var row1 := Row(None, Some("+1"));
    assert w1.db == Db(map[1 := row1], map["+1" := 1], map[], map["+1" := 1, "u" := 1], 2, map[1 := 1]);
    var w2 := After(w1, run);
    var w3 := After(w2, second);
    assert "+2" != "u" && "+2" != "+1" by { assert "+2"[1] != "+1"[1]; }
    assert w3.db.root == map[1 := 1, 2 := 2];
    var calls := [first, run, second];
    assert calls[1..] == [run, second] && calls[1..][1..] == [second] && calls[1..][1..][1..] == [];
    assert Final(start, calls) == Final(w1, calls[1..]) == Final(w2, [second]) == Final(w3, []) == w3;
    assert Handed(w2, [second]) == {("u", 2)};
    assert Handed(w1, calls[1..]) == {("u", 2)};
  }

  // ---- The resolver object ----

  /** participantResolver: two caches over the shared tables. */
  class ParticipantResolver {
    var db: Db
    var rich: map<UserId, Rich>
    var fallback: map<UserId, Pid>

    ghost function View(): World reads this { World(db, rich, fallback) }

    constructor (store: Db)
      ensures View() == After(World(store, map[], map[]), NewRun)
    {
      db, rich, fallback := store, map[], map[];
    }

    method RecordRich(id: UserId, pid: Pid, byPhone: bool)
      modifies this
      ensures View() == RichRecorded(old(View()), id, pid, byPhone)
    {
      var prev := Owner(db, id);
      if prev != 0 && prev != pid && !HasPhone(db, prev) {
        db := Merge(db, prev, pid);
      }
      db := db.(idents := db.idents[id := pid]);
      rich := rich[id := Rich(pid, byPhone)];
      fallback := fallback - {id};
    }

    method ResolveID(id: UserId) returns (pid: Pid)
      modifies this
      ensures Outcome(View(), pid) == IDResolution(old(View()), id)
    {
      if id == "" {
        return 0;
      }
      if id in rich {
        return rich[id].pid;
      }
      if id in fallback {
        return fallback[id];
      }
      pid := IdentRow(db, id);
      db := EnsureByIdentifier(db, id);
      fallback := fallback[id := pid];
    }

    method ResolveUser(u: User) returns (pid: Pid)
      modifies this
      ensures Outcome(View(), pid) == UserResolution(old(View()), u)
    {
      if u.id == "" {
        return 0;
      }
      if u.id in rich && (rich[u.id].byPhone || !IsPhone(u.phone)) {
        return rich[u.id].pid;
      }
      if IsPhone(u.phone) {
        pid := PhoneRow(db, u.phone);
        db := EnsureByPhone(db, u.phone);
        if u.id in rich && rich[u.id].pid != pid {
          db := Merge(db, rich[u.id].pid, pid);
        }
        RecordRich(u.id, pid, true);
      } else if IsEmail(u.email) {
        var prev := Owner(db, u.id);
        if prev != 0 && HasPhone(db, prev) {
          rich := rich[u.id := Rich(prev, true)];
          fallback := fallback - {u.id};
          return prev;
        }
        pid := EmailRow(db, Lower(u.email));
        db := EnsureByEmail(db, Lower(u.email));
        RecordRich(u.id, pid, false);
      } else {
        pid := ResolveID(u.id);
      }
    }
  }
}
