/**
 * The complaint controller: the six request handlers over the complaint
 * collection. The collection is a sequence of saved documents in insertion
 * order with distinct ids; each handler is a method of `ComplaintStore`, and
 * each state-changing handler is specified by a pure function giving the
 * reply and the new collection, about which the policy is proved.
 */
module ComplaintController {
  import opened Js
  import opened Api
  import opened ComplaintSchema

  /** The fields a request body may carry; each may be absent. */
  datatype ComplaintBody = ComplaintBody(
    title: MaybeString,
    description: MaybeString,
    category: MaybeString,
    status: MaybeString)

  /** What a state-changing handler answers and what the collection holds afterwards. */
  datatype Outcome<+T> = Outcome(reply: Reply<T>, records: seq<Complaint>)

  // ---------------------------------------------------------------- the collection

  predicate DistinctIds(rs: seq<Complaint>) {
    forall i, j :: 0 <= i < j < |rs| ==> rs[i].id != rs[j].id
  }

  /** Every saved document passed validation, went through the setters and has an id below `nextId`. */
  predicate Saved(c: Complaint, nextId: ComplaintId) {
    Valid(c) && Trimmed(c) && c.id < nextId
  }

  predicate StoreInvariant(rs: seq<Complaint>, nextId: ComplaintId) {
    DistinctIds(rs) && forall c :: c in rs ==> Saved(c, nextId)
  }

  /** `Complaint.findById(id)`. */
  function Find(rs: seq<Complaint>, id: ComplaintId): (r: Option<Complaint>)
    ensures r.Some? ==> r.value in rs && r.value.id == id
    ensures r.None? <==> forall c :: c in rs ==> c.id != id
  {
    if rs == [] then None
    else if rs[0].id == id then Some(rs[0])
    else Find(rs[1..], id)
  }

  /** With distinct ids, findById returns the one document carrying that id. */
  lemma {:induction false} FindMember(rs: seq<Complaint>, c: Complaint)
    requires DistinctIds(rs) && c in rs
    ensures Find(rs, c.id) == Some(c)
  {
    if rs[0] != c {
      assert c in rs[1..];
      FindMember(rs[1..], c);
    }
  }

  /** Saving a document that already exists: the one with its id is replaced. */
  function Replace(rs: seq<Complaint>, c: Complaint): (r: seq<Complaint>)
    ensures |r| == |rs|
    ensures forall i :: 0 <= i < |rs| ==> r[i] == if rs[i].id == c.id then c else rs[i]
  {
    if rs == [] then []
    else [if rs[0].id == c.id then c else rs[0]] + Replace(rs[1..], c)
  }

  /** After a replace, findById sees the new document under its id and the old ones elsewhere. */
  lemma {:induction false} FindAfterReplace(rs: seq<Complaint>, c: Complaint, id: ComplaintId)
    ensures Find(Replace(rs, c), id) ==
      if id == c.id && Find(rs, id).Some? then Some(c) else Find(rs, id)
  {
    if rs != [] {
      FindAfterReplace(rs[1..], c, id);
      assert Replace(rs, c)[1..] == Replace(rs[1..], c);
    }
  }

  /** Replacing twice under the same id is replacing with the later document. */
  lemma {:induction false} ReplaceTwice(rs: seq<Complaint>, a: Complaint, b: Complaint)
    requires a.id == b.id
    ensures Replace(Replace(rs, a), b) == Replace(rs, b)
  {
    if rs != [] {
      ReplaceTwice(rs[1..], a, b);
      assert Replace(rs, a)[1..] == Replace(rs[1..], a);
    }
  }

  lemma ReplaceKeepsInvariant(rs: seq<Complaint>, c: Complaint, nextId: ComplaintId)
    requires StoreInvariant(rs, nextId) && Saved(c, nextId)
    ensures StoreInvariant(Replace(rs, c), nextId)
  {
    var r := Replace(rs, c);
    forall x | x in r ensures Saved(x, nextId) {
      var i :| 0 <= i < |r| && r[i] == x;
      assert rs[i] in rs;
    }
  }

  /** `Complaint.deleteOne({_id: id})`. */
  function Remove(rs: seq<Complaint>, id: ComplaintId): (r: seq<Complaint>)
    ensures forall c :: c in r <==> c in rs && c.id != id
    ensures DistinctIds(rs) ==> DistinctIds(r)
  {
    if rs == [] then []
    else if rs[0].id == id then Remove(rs[1..], id)
    else
      var rest := Remove(rs[1..], id);
      assert forall c :: c in rest ==> c in rs[1..];
      assert DistinctIds(rs) ==> forall k :: 0 <= k < |rest| ==> rest[k].id != rs[0].id by {
        if DistinctIds(rs) {
          forall k | 0 <= k < |rest| ensures rest[k].id != rs[0].id {
            assert rest[k] in rs[1..];
            var j :| 0 <= j < |rs[1..]| && rs[1..][j] == rest[k];
            assert rs[j + 1] == rest[k];
          }
        }
      }
      [rs[0]] + rest
  }

  /** After a delete, findById misses the deleted id and sees every other document as before. */
  lemma {:induction false} FindAfterRemove(rs: seq<Complaint>, id: ComplaintId, other: ComplaintId)
    requires DistinctIds(rs)
    ensures Find(Remove(rs, id), other) == if other == id then None else Find(rs, other)
  {
    if other != id {
      match Find(rs, other)
      case Some(c) => FindMember(Remove(rs, id), c);
      case None =>
    }
  }

  // ---------------------------------------------------------------- authorisation

  /** The handlers' gate: `owner !== req.user.id && role !== 'admin'` answers 401. */
  predicate MayAccess(caller: Caller, c: Complaint) {
    c.owner == Some(caller.id) || IsAdmin(caller)
  }

  // ---------------------------------------------------------------- listing

  /** `Complaint.find({owner: uid})`, in collection order. */
  function OwnedBy(rs: seq<Complaint>, uid: UserId): (r: seq<Complaint>)
    ensures forall c :: c in r <==> c in rs && c.owner == Some(uid)
    ensures forall c :: multiset(r)[c] == if c.owner == Some(uid) then multiset(rs)[c] else 0
  {
    assert rs != [] ==> rs == [rs[0]] + rs[1..];
    if rs == [] then []
    else if rs[0].owner == Some(uid) then [rs[0]] + OwnedBy(rs[1..], uid)
    else OwnedBy(rs[1..], uid)
  }

  /** `.sort({createdAt: -1})`: newest first. */
  predicate NewestFirst(s: seq<Complaint>) {
    forall i, j :: 0 <= i < j < |s| ==> s[i].createdAt >= s[j].createdAt
  }

  /** A document no older than the head of a newest-first list can go in front of it. */
  lemma ConsNewestFirst(x: Complaint, s: seq<Complaint>)
    requires NewestFirst(s)
    requires s != [] ==> x.createdAt >= s[0].createdAt
    ensures NewestFirst([x] + s)
  {
    var r := [x] + s;
    forall i, j | 0 <= i < j < |r| ensures r[i].createdAt >= r[j].createdAt {
      if i == 0 && j > 1 { assert s[0].createdAt >= s[j - 1].createdAt; }
      if i > 0 { assert r[i] == s[i - 1] && r[j] == s[j - 1]; }
    }
  }

  /** Inserts `c` into a newest-first list in front of the first document no newer than it. */
  function Insert(c: Complaint, s: seq<Complaint>): (r: seq<Complaint>)
    requires NewestFirst(s)
    ensures NewestFirst(r)
    ensures multiset(r) == multiset(s) + multiset{c}
    ensures |r| == |s| + 1 && (r[0] == c || (s != [] && r[0] == s[0]))
  {
    if s == [] || c.createdAt >= s[0].createdAt then
      ConsNewestFirst(c, s);
      [c] + s
    else
      assert s == [s[0]] + s[1..];
      var rest := Insert(c, s[1..]);
      ConsNewestFirst(s[0], rest);
      [s[0]] + rest
  }

  /**
   * One ordering the database may return for `.sort({createdAt: -1})`: the
   * documents newest first. Documents created in the same millisecond may
   * come in any order; this function fixes one of them.
   */
  function SortNewestFirst(s: seq<Complaint>): (r: seq<Complaint>)
    ensures NewestFirst(r)
    ensures multiset(r) == multiset(s)
  {
    if s == [] then []
    else
      assert s == [s[0]] + s[1..];
      Insert(s[0], SortNewestFirst(s[1..]))
  }

  // ---------------------------------------------------------------- create

  /**
   * POST /api/complaints: 400 unless title, description and category are all
   * truthy; otherwise a new document owned by the caller, saved if it passes
   * validation (201) and answered 500 with nothing stored if it does not.
   */
  function CreateEffect(rs: seq<Complaint>, nextId: ComplaintId, caller: Caller,
                        body: ComplaintBody, now: Time): (o: Outcome<Complaint>)
    ensures !(Truthy(body.title) && Truthy(body.description) && Truthy(body.category)) ==>
      o == Outcome(Err(BAD_REQUEST), rs)
    ensures o.reply.Ok? <==>
      && Truthy(body.title) && Truthy(body.description) && Truthy(body.category)
      && Valid(NewDocument(nextId, body.title.value, body.description.value, body.category.value, caller.id, now))
    ensures o.reply.Err? ==> o.records == rs && o.reply.code in {BAD_REQUEST, SERVER_ERROR}
    ensures Truthy(body.title) && Truthy(body.description) && Truthy(body.category) && o.reply.Err? ==>
      o.reply.code == SERVER_ERROR
    ensures o.reply.Ok? ==>
      && o.reply.code == CREATED
      && o.records == rs + [o.reply.value]
      && o.reply.value.id == nextId
      && o.reply.value.owner == Some(caller.id)
      && o.reply.value.status == Some(Pending)
      && o.reply.value.createdAt == now && o.reply.value.updatedAt == now
      && o.reply.value.title == Trim(body.title.value)
      && o.reply.value.description == Trim(body.description.value)
      && o.reply.value.category == body.category.value
      && MayAccess(caller, o.reply.value)
    ensures StoreInvariant(rs, nextId) ==>
      && StoreInvariant(o.records, if o.reply.Ok? then nextId + 1 else nextId)
      && (o.reply.Ok? ==> Find(o.records, nextId) == Some(o.reply.value))
  {
    if !Truthy(body.title) || !Truthy(body.description) || !Truthy(body.category) then
      Outcome(Err(BAD_REQUEST), rs)
    else
      var doc := NewDocument(nextId, body.title.value, body.description.value,
                             body.category.value, caller.id, now);
      match Save(doc, now)
      case None => Outcome(Err(SERVER_ERROR), rs)
      case Some(saved) =>
        assert StoreInvariant(rs, nextId) ==> StoreInvariant(rs + [saved], nextId + 1) by {
          if StoreInvariant(rs, nextId) {
            forall c | c in rs + [saved] ensures Saved(c, nextId + 1) {
              if c != saved { assert c in rs; }
            }
            var all := rs + [saved];
            forall i, j | 0 <= i < j < |all| ensures all[i].id != all[j].id {
              assert all[i] == rs[i] && rs[i] in rs;
              if j < |rs| { assert all[j] == rs[j]; }
            }
          }
        }
        assert StoreInvariant(rs, nextId) ==> Find(rs + [saved], nextId) == Some(saved) by {
          if StoreInvariant(rs, nextId) { FindMember(rs + [saved], saved); }
        }
        Outcome(Ok(CREATED, saved), rs + [saved])
  }

  /**
   * A request whose fields are all present is still refused with 500 when the
   * title is only white space (it passes the truthiness check but the `trim`
   * setter leaves nothing for `required`) or the category is outside the enum.
   */
  lemma CreateRejectedOnlyBySchema(rs: seq<Complaint>, nextId: ComplaintId, caller: Caller,
                                   body: ComplaintBody, now: Time)
    requires Truthy(body.title) && Truthy(body.description) && Truthy(body.category)
    requires AllSpace(body.title.value) || body.category.value !in Categories
    ensures CreateEffect(rs, nextId, caller, body, now) == Outcome(Err(SERVER_ERROR), rs)
  {
  }

  // ---------------------------------------------------------------- update

  /**
   * The field assignments of PUT /api/complaints/:id. Each field takes
   * `body.field || doc.field`, and the setters trim title and description;
   * only an admin's request touches status.
   */
  function Patched(c: Complaint, body: ComplaintBody, admin: bool): (r: Complaint)
    ensures r.id == c.id && r.owner == c.owner
    ensures r.createdAt == c.createdAt && r.updatedAt == c.updatedAt
    ensures NoOuterSpace(r.title) && NoOuterSpace(r.description)
  {
    c.(title := Trim(Or(body.title, c.title)),
       description := Trim(Or(body.description, c.description)),
       category := Or(body.category, c.category),
       status := if admin && Truthy(body.status) then body.status else c.status)
  }

  /**
   * The partial update in JavaScript's terms: a truthy field replaces the stored
   * one (trimmed), a falsy one (absent or empty) keeps it; status follows the
   * same rule for an admin and never changes for anyone else.
   */
  lemma {:induction false} PatchedFields(c: Complaint, body: ComplaintBody, admin: bool)
    requires Trimmed(c)
    ensures var r := Patched(c, body, admin);
      && r.title == (if Truthy(body.title) then Trim(body.title.value) else c.title)
      && r.description == (if Truthy(body.description) then Trim(body.description.value) else c.description)
      && r.category == (if Truthy(body.category) then body.category.value else c.category)
      && r.status == (if admin && Truthy(body.status) then body.status else c.status)
  {
    if !Truthy(body.title) { TrimOfTrimmed(c.title); }
    if !Truthy(body.description) { TrimOfTrimmed(c.description); }
  }

  /** Applying the same patch twice gives what applying it once gives. */
  lemma {:induction false} PatchedIdempotent(c: Complaint, body: ComplaintBody, admin: bool)
    ensures Patched(Patched(c, body, admin), body, admin) == Patched(c, body, admin)
  {
    TrimIdempotent(Or(body.title, c.title));
    TrimIdempotent(Or(body.description, c.description));
  }

  /**
   * PUT /api/complaints/:id: 404 for a missing id before anything else is
   * looked at, then 401 for a non-admin who does not own the document, then the
   * patch; a patched document that fails validation is answered 500 and not
   * stored, one that passes replaces the stored one with `updatedAt` refreshed.
   */
  function UpdateEffect(rs: seq<Complaint>, caller: Caller, id: ComplaintId,
                        body: ComplaintBody, now: Time): (o: Outcome<Complaint>)
    ensures Find(rs, id).None? ==> o == Outcome(Err(NOT_FOUND), rs)
    ensures Find(rs, id).Some? && !MayAccess(caller, Find(rs, id).value) ==>
      o == Outcome(Err(UNAUTHORIZED), rs)
    ensures o.reply.Ok? <==>
      && Find(rs, id).Some? && MayAccess(caller, Find(rs, id).value)
      && Valid(Patched(Find(rs, id).value, body, IsAdmin(caller)))
    ensures Find(rs, id).Some? && MayAccess(caller, Find(rs, id).value) && o.reply.Err? ==>
      o == Outcome(Err(SERVER_ERROR), rs)
    ensures o.reply.Err? ==> o.records == rs
    ensures o.reply.Ok? ==>
      && o.reply.code == OK
      && Find(rs, id).Some? && MayAccess(caller, Find(rs, id).value)
      && o.reply.value == Touch(Patched(Find(rs, id).value, body, IsAdmin(caller)), now)
      && o.records == Replace(rs, o.reply.value)
  {
    match Find(rs, id)
    case None => Outcome(Err(NOT_FOUND), rs)
    case Some(c) =>
      if !MayAccess(caller, c) then Outcome(Err(UNAUTHORIZED), rs)
      else match Save(Patched(c, body, IsAdmin(caller)), now)
        case None => Outcome(Err(SERVER_ERROR), rs)
        case Some(saved) => Outcome(Ok(OK, saved), Replace(rs, saved))
  }

  /**
   * What a successful update changes: the document under `id` and nothing
   * else; its owner and creation time stay, its `updatedAt` is `now`, and a
   * non-admin's request leaves its status as it was whatever the body says.
   */
  lemma UpdateChangesOnlyTarget(rs: seq<Complaint>, nextId: ComplaintId, caller: Caller,
                                id: ComplaintId, body: ComplaintBody, now: Time, other: ComplaintId)
    requires StoreInvariant(rs, nextId)
    ensures var o := UpdateEffect(rs, caller, id, body, now);
      && StoreInvariant(o.records, nextId)
      && (o.reply.Ok? ==>
            && Find(o.records, id) == Some(o.reply.value)
            && o.reply.value.owner == Find(rs, id).value.owner
            && o.reply.value.createdAt == Find(rs, id).value.createdAt
            && o.reply.value.updatedAt == now
            && (!IsAdmin(caller) ==> o.reply.value.status == Find(rs, id).value.status)
            && (other != id ==> Find(o.records, other) == Find(rs, other)))
  {
    var o := UpdateEffect(rs, caller, id, body, now);
    if o.reply.Ok? {
      FindAfterReplace(rs, o.reply.value, id);
      FindAfterReplace(rs, o.reply.value, other);
      ReplaceKeepsInvariant(rs, o.reply.value, nextId);
    }
  }

  /**
   * Sending the same update twice ends where sending it once does, apart from
   * the second `updatedAt`: the same reply code, and on success the same
   * document and collection with only that timestamp moved.
   */
  lemma UpdateTwice(rs: seq<Complaint>, caller: Caller, id: ComplaintId,
                    body: ComplaintBody, t1: Time, t2: Time)
    ensures var o1 := UpdateEffect(rs, caller, id, body, t1);
            var o2 := UpdateEffect(o1.records, caller, id, body, t2);
      && (o1.reply.Err? ==> o2 == o1)
      && (o1.reply.Ok? ==>
            && o2.reply == Ok(OK, o1.reply.value.(updatedAt := t2))
            && o2.records == Replace(rs, o1.reply.value.(updatedAt := t2)))
  {
    var o1 := UpdateEffect(rs, caller, id, body, t1);
    if o1.reply.Ok? {
      var c := Find(rs, id).value;
      var saved := o1.reply.value;
      FindAfterReplace(rs, saved, id);
      PatchedIdempotent(c, body, IsAdmin(caller));
      assert Patched(saved, body, IsAdmin(caller)) == Patched(c, body, IsAdmin(caller)).(updatedAt := t1);
      ReplaceTwice(rs, saved, saved.(updatedAt := t2));
    }
  }

  // ---------------------------------------------------------------- update status

  /**
   * PUT /api/complaints/:id/status: the status value is checked first (400,
   * even for an id that does not exist), then existence (404), then the role
   * (401); only the status and `updatedAt` change.
   */
  function UpdateStatusEffect(rs: seq<Complaint>, caller: Caller, id: ComplaintId,
                              status: MaybeString, now: Time): (o: Outcome<Complaint>)
    ensures !(status.Some? && status.value in Statuses) ==> o == Outcome(Err(BAD_REQUEST), rs)
    ensures status.Some? && status.value in Statuses && Find(rs, id).None? ==>
      o == Outcome(Err(NOT_FOUND), rs)
    ensures status.Some? && status.value in Statuses && Find(rs, id).Some? && !IsAdmin(caller) ==>
      o == Outcome(Err(UNAUTHORIZED), rs)
    ensures o.reply.Ok? <==>
      && status.Some? && status.value in Statuses && Find(rs, id).Some? && IsAdmin(caller)
      && Valid(Find(rs, id).value.(status := status))
    ensures o.reply.Err? ==> o.records == rs
    ensures o.reply.Ok? ==>
      && o.reply.code == OK && IsAdmin(caller) && Find(rs, id).Some?
      && o.reply.value.status == status && o.reply.value.updatedAt == now
      && o.reply.value.(status := Find(rs, id).value.status, updatedAt := Find(rs, id).value.updatedAt)
           == Find(rs, id).value
      && o.records == Replace(rs, o.reply.value)
  {
    if !(status.Some? && status.value in Statuses) then Outcome(Err(BAD_REQUEST), rs)
    else match Find(rs, id)
      case None => Outcome(Err(NOT_FOUND), rs)
      case Some(c) =>
        if !IsAdmin(caller) then Outcome(Err(UNAUTHORIZED), rs)
        else match Save(c.(status := status), now)
          case None => Outcome(Err(SERVER_ERROR), rs)
          case Some(saved) => Outcome(Ok(OK, saved), Replace(rs, saved))
  }

  /**
   * On a well-formed collection a status update by an admin to a valid value
   * of an existing document always succeeds (the document was valid and stays
   * so), keeps the collection well formed, and leaves every other id alone.
   */
  lemma UpdateStatusSucceeds(rs: seq<Complaint>, nextId: ComplaintId, caller: Caller,
                             id: ComplaintId, status: MaybeString, now: Time, other: ComplaintId)
    requires StoreInvariant(rs, nextId)
    ensures var o := UpdateStatusEffect(rs, caller, id, status, now);
      && StoreInvariant(o.records, nextId)
      && o.reply != Err(SERVER_ERROR)
      && (o.reply.Ok? <==> status.Some? && status.value in Statuses && Find(rs, id).Some? && IsAdmin(caller))
      && (o.reply.Ok? ==> Find(o.records, id) == Some(o.reply.value))
      && (other != id ==> Find(o.records, other) == Find(rs, other))
  {
    var o := UpdateStatusEffect(rs, caller, id, status, now);
    if status.Some? && status.value in Statuses && Find(rs, id).Some? && IsAdmin(caller) {
      var c := Find(rs, id).value;
      assert Saved(c, nextId);
      assert Valid(c.(status := status));
      FindAfterReplace(rs, o.reply.value, id);
      FindAfterReplace(rs, o.reply.value, other);
      ReplaceKeepsInvariant(rs, o.reply.value, nextId);
    }
  }

  // ---------------------------------------------------------------- delete

  /**
   * DELETE /api/complaints/:id: 404 for a missing id, then 401 for a non-admin
   * who does not own the document; otherwise exactly that document is removed.
   */
  function DeleteEffect(rs: seq<Complaint>, caller: Caller, id: ComplaintId): (o: Outcome<()>)
    ensures Find(rs, id).None? ==> o == Outcome(Err(NOT_FOUND), rs)
    ensures Find(rs, id).Some? && !MayAccess(caller, Find(rs, id).value) ==>
      o == Outcome(Err(UNAUTHORIZED), rs)
    ensures o.reply.Ok? <==> Find(rs, id).Some? && MayAccess(caller, Find(rs, id).value)
    ensures o.reply.Ok? ==> o.reply.code == OK && o.records == Remove(rs, id)
    ensures o.reply.Err? ==> o.records == rs
  {
    match Find(rs, id)
    case None => Outcome(Err(NOT_FOUND), rs)
    case Some(c) =>
      if !MayAccess(caller, c) then Outcome(Err(UNAUTHORIZED), rs)
      else Outcome(Ok(OK, ()), Remove(rs, id))
  }

  /** A delete keeps the collection well formed; afterwards the id is gone and every other id reads as before. */
  lemma DeleteRemovesExactlyOne(rs: seq<Complaint>, nextId: ComplaintId, caller: Caller,
                                id: ComplaintId, other: ComplaintId)
    requires StoreInvariant(rs, nextId)
    ensures var o := DeleteEffect(rs, caller, id);
      && StoreInvariant(o.records, nextId)
      && (o.reply.Ok? ==> Find(o.records, id).None?)
      && (other != id ==> Find(o.records, other) == Find(rs, other))
  {
    FindAfterRemove(rs, id, id);
    FindAfterRemove(rs, id, other);
  }

  // ---------------------------------------------------------------- the handlers

  class ComplaintStore {
    var records: seq<Complaint>
    var nextId: ComplaintId

    ghost predicate Valid()
      reads this
    {
      StoreInvariant(records, nextId)
    }

    constructor ()
      ensures Valid() && records == [] && nextId == 0
    {
      records := [];
      nextId := 0;
    }

    /**
     * GET /api/complaints: an admin gets every document, anyone else exactly
     * the documents they own; both lists are newest first.
     */
    method GetComplaints(caller: Caller) returns (r: Reply<seq<Complaint>>)
      ensures r.Ok? && r.code == OK
      ensures NewestFirst(r.value)
      ensures IsAdmin(caller) ==> multiset(r.value) == multiset(records)
      ensures !IsAdmin(caller) ==> multiset(r.value) == multiset(OwnedBy(records, caller.id))
      ensures forall c :: c in r.value <==> c in records && MayAccess(caller, c)
    {
      var complaints: seq<Complaint>;
      if caller.role == Admin {
        complaints := SortNewestFirst(records);
      } else {
        complaints := SortNewestFirst(OwnedBy(records, caller.id));
      }
      assert forall c :: c in complaints <==> c in multiset(complaints);
      r := Ok(OK, complaints);
    }

    /** GET /api/complaints/:id: existence (404) is checked before ownership (401). */
    method GetComplaint(caller: Caller, id: ComplaintId) returns (r: Reply<Complaint>)
      ensures Find(records, id).None? ==> r == Err(NOT_FOUND)
      ensures Find(records, id).Some? && !MayAccess(caller, Find(records, id).value) ==>
        r == Err(UNAUTHORIZED)
      ensures r.Ok? <==> Find(records, id).Some? && MayAccess(caller, Find(records, id).value)
      ensures r.Ok? ==> r.code == OK && r.value == Find(records, id).value && r.value.id == id
    {
      var found := Find(records, id);
      if found.None? {
        return Err(NOT_FOUND);
      }
      var complaint := found.value;
      if complaint.owner != Some(caller.id) && caller.role != Admin {
        return Err(UNAUTHORIZED);
      }
      r := Ok(OK, complaint);
    }

    /** `doc.save()`: validate, then the pre-save hook; insert a new id or replace an existing one. */
    method SaveDocument(doc: Complaint, now: Time) returns (saved: Option<Complaint>)
      modifies this
      ensures saved == Save(doc, now)
      ensures nextId == old(nextId)
      ensures records == if saved.None? then old(records)
                         else if Find(old(records), doc.id).Some? then Replace(old(records), saved.value)
                         else old(records) + [saved.value]
    {
      saved := Save(doc, now);
      if saved.Some? {
        if Find(records, doc.id).Some? {
          records := Replace(records, saved.value);
        } else {
          records := records + [saved.value];
        }
      }
    }

    /** POST /api/complaints. */
    method CreateComplaint(caller: Caller, body: ComplaintBody, now: Time) returns (r: Reply<Complaint>)
      requires Valid()
      modifies this
      ensures Valid()
      ensures Outcome(r, records) == CreateEffect(old(records), old(nextId), caller, body, now)
      ensures nextId == if r.Ok? then old(nextId) + 1 else old(nextId)
    {
      if !Truthy(body.title) || !Truthy(body.description) || !Truthy(body.category) {
        return Err(BAD_REQUEST);
      }
      var complaint := NewDocument(nextId, body.title.value, body.description.value,
                                   body.category.value, caller.id, now);
      assert Find(records, nextId).None?;
      var saved := SaveDocument(complaint, now);
      if saved.None? {
        return Err(SERVER_ERROR);
      }
      nextId := nextId + 1;
      r := Ok(CREATED, saved.value);
    }

    /** PUT /api/complaints/:id. */
    method UpdateComplaint(caller: Caller, id: ComplaintId, body: ComplaintBody, now: Time)
      returns (r: Reply<Complaint>)
      requires Valid()
      modifies this
      ensures Valid()
      ensures Outcome(r, records) == UpdateEffect(old(records), caller, id, body, now)
      ensures nextId == old(nextId)
    {
      var found := Find(records, id);
      if found.None? {
        return Err(NOT_FOUND);
      }
      var complaint := found.value;
      if complaint.owner != Some(caller.id) && caller.role != Admin {
        return Err(UNAUTHORIZED);
      }
      // The setters trim whatever is assigned to title and description.
      if caller.role == Admin {
        complaint := complaint.(title := Trim(Or(body.title, complaint.title)));
        complaint := complaint.(description := Trim(Or(body.description, complaint.description)));
        complaint := complaint.(category := Or(body.category, complaint.category));
        complaint := complaint.(status := if Truthy(body.status) then body.status else complaint.status);
      } else {
        complaint := complaint.(title := Trim(Or(body.title, complaint.title)));
        complaint := complaint.(description := Trim(Or(body.description, complaint.description)));
        complaint := complaint.(category := Or(body.category, complaint.category));
      }
      var saved := SaveDocument(complaint, now);
      if saved.None? {
        return Err(SERVER_ERROR);
      }
      UpdateChangesOnlyTarget(old(records), nextId, caller, id, body, now, id);
      r := Ok(OK, saved.value);
    }

    /** PUT /api/complaints/:id/status. */
    method UpdateComplaintStatus(caller: Caller, id: ComplaintId, status: MaybeString, now: Time)
      returns (r: Reply<Complaint>)
      requires Valid()
      modifies this
      ensures Valid()
      ensures Outcome(r, records) == UpdateStatusEffect(old(records), caller, id, status, now)
      ensures nextId == old(nextId)
    {
      if !(status.Some? && status.value in Statuses) {
        return Err(BAD_REQUEST);
      }
      var found := Find(records, id);
      if found.None? {
        return Err(NOT_FOUND);
      }
      var complaint := found.value;
      if caller.role != Admin {
        return Err(UNAUTHORIZED);
      }
      complaint := complaint.(status := status);
      var saved := SaveDocument(complaint, now);
      if saved.None? {
        return Err(SERVER_ERROR);
      }
      UpdateStatusSucceeds(old(records), nextId, caller, id, status, now, id);
      r := Ok(OK, saved.value);
    }

    /** DELETE /api/complaints/:id. */
    method DeleteComplaint(caller: Caller, id: ComplaintId) returns (r: Reply<()>)
      requires Valid()
      modifies this
      ensures Valid()
      ensures Outcome(r, records) == DeleteEffect(old(records), caller, id)
      ensures nextId == old(nextId)
    {
      var found := Find(records, id);
      if found.None? {
        return Err(NOT_FOUND);
      }
      var complaint := found.value;
      if complaint.owner != Some(caller.id) && caller.role != Admin {
        return Err(UNAUTHORIZED);
      }
      records := Remove(records, id);
      DeleteRemovesExactlyOne(old(records), nextId, caller, id, id);
      r := Ok(OK, ());
    }
  }
}
