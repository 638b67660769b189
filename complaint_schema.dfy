/**
 * The complaint document: its fields, the schema constraints that a save
 * checks, how a new document is built (the `trim` setters and the timestamp
 * defaults), and the pre-save hook that refreshes `updatedAt`.
 */
module ComplaintSchema {
  import opened Js
  import opened Api

  type ComplaintId = nat

  /** Milliseconds since the epoch, as `Date.now()` gives them. */
  type Time = int

  const Categories: set<string> := {"Technical", "Billing", "Service", "Product", "Other"}
  const Statuses: set<string> := {"Pending", "In Progress", "Resolved"}
  const Pending := "Pending"
  const TitleMaxLength := 100

  /**
   * A complaint document as Mongoose holds it after its setters ran: `title`
   * and `description` are stored trimmed. `status` may be unset (the schema does
   * not require it) and `owner` is a reference that may be missing on a document
   * that was never validated.
   */
  datatype Complaint = Complaint(
    id: ComplaintId,
    title: string,
    description: string,
    category: string,
    status: Option<string>,
    owner: Option<UserId>,
    createdAt: Time,
    updatedAt: Time)

  /**
   * The schema's validators. A required string must be non-empty (after the
   * `trim` setter); the title is at most 100 characters; category is one of
   * the five values; status, when set, is one of the three values; the owner
   * reference is required.
   */
  predicate Valid(c: Complaint) {
    && c.title != "" && |c.title| <= TitleMaxLength
    && c.description != ""
    && c.category in Categories
    && (c.status.Some? ==> c.status.value in Statuses)
    && c.owner.Some?
  }

  /** The `trim` setters have run: the stored strings have no outer white space. */
  predicate Trimmed(c: Complaint) {
    NoOuterSpace(c.title) && NoOuterSpace(c.description)
  }

  /**
   * `new Complaint({title, description, category, owner})` as the schema is
   * written: the `default: 'Pending'` sits inside the options of the `enum`
   * validator, where Mongoose does not read it, so the new document has no
   * status at all.
   */
  function NewDocumentAsWritten(id: ComplaintId, title: string, description: string,
                                category: string, owner: UserId, now: Time): (c: Complaint)
    ensures c.status == None && Trimmed(c)
  {
    Complaint(id, Trim(title), Trim(description), category, None, Some(owner), now, now)
  }

  /**
   * The same construction with the evidently intended default: the status
   * starts as Pending. The rest of the model builds documents with this one.
   */
  function NewDocument(id: ComplaintId, title: string, description: string,
                       category: string, owner: UserId, now: Time): (c: Complaint)
    ensures c.id == id
    ensures c.status == Some(Pending) && c.status.value in Statuses
    ensures c.owner == Some(owner) && c.createdAt == now && c.updatedAt == now
    ensures c.title == Trim(title) && c.description == Trim(description) && c.category == category
    ensures Trimmed(c)
    ensures Valid(c) <==>
      && Trim(title) != "" && |Trim(title)| <= TitleMaxLength
      && Trim(description) != ""
      && category in Categories
  {
    Complaint(id, Trim(title), Trim(description), category, Some(Pending), Some(owner), now, now)
  }

  /**
   * The as-written construction yields documents that pass validation while
   * carrying no status, whatever fields they are built from.
   */
  lemma StatusDefaultNotApplied(id: ComplaintId, title: string, description: string,
                                category: string, owner: UserId, now: Time)
    requires Trim(title) != "" && |Trim(title)| <= TitleMaxLength
    requires Trim(description) != "" && category in Categories
    ensures var c := NewDocumentAsWritten(id, title, description, category, owner, now);
      Valid(c) && c.status != Some(Pending)
  {
  }

  /** A description made only of white space cannot be saved. */
  lemma BlankDescriptionInvalid(id: ComplaintId, title: string, description: string,
                                category: string, owner: UserId, now: Time)
    requires AllSpace(description)
    ensures !Valid(NewDocument(id, title, description, category, owner, now))
  {
  }

  /** The pre-save hook: `this.updatedAt = Date.now()`, nothing else. */
  function Touch(c: Complaint, now: Time): (r: Complaint)
    ensures r.updatedAt == now
    ensures r.(updatedAt := c.updatedAt) == c
  {
    c.(updatedAt := now)
  }

  /** The hook only refreshes a timestamp, so it never changes whether a document is valid. */
  lemma TouchKeepsValidity(c: Complaint, now: Time)
    ensures Valid(Touch(c, now)) == Valid(c)
  {
  }

  /**
   * `doc.save()`: Mongoose runs the validators before the schema's own pre-save
   * hooks, so a document that fails them is not saved and keeps its old
   * `updatedAt`; one that passes is stored with `updatedAt` refreshed.
   */
  function Save(doc: Complaint, now: Time): (saved: Option<Complaint>)
    ensures saved.Some? <==> Valid(doc)
    ensures saved.Some? ==> saved.value == Touch(doc, now) && Valid(saved.value)
  {
    if Valid(doc) then Some(Touch(doc, now)) else None
  }
}
