/**
 * The admin dashboard's decision logic: patching one complaint's status in the
 * locally held list after the status call returns, and the badge colour of a
 * status.
 */
module AdminDashboard {
  import opened Js
  import ComplaintSchema

  /** One entry of the list the dashboard holds, as the API returned it. */
  datatype ListedComplaint = ListedComplaint(
    id: string,
    title: string,
    description: string,
    category: string,
    status: MaybeString,
    ownerEmail: MaybeString,
    createdAt: int,
    updatedAt: int)

  /** The status call's outcome: the updated complaint's status, or an error. */
  datatype StatusAnswer = Updated(status: MaybeString) | CallFailed

  /**
   * `complaints.map(c => c._id === id ? {...c, status} : c)`: same length and
   * order; the entries with that id take the status, with every other field
   * kept, and all other entries stay as they were.
   */
  function PatchStatus(list: seq<ListedComplaint>, id: string, status: MaybeString): (r: seq<ListedComplaint>)
    ensures |r| == |list|
    ensures forall i :: 0 <= i < |list| && list[i].id == id ==>
      r[i].status == status && r[i].(status := list[i].status) == list[i]
    ensures forall i :: 0 <= i < |list| && list[i].id != id ==> r[i] == list[i]
  {
    if list == [] then []
    else [if list[0].id == id then list[0].(status := status) else list[0]]
         + PatchStatus(list[1..], id, status)
  }

  /** `updateStatus`: the list after the call; a failed call leaves it as it was. */
  function AfterUpdateStatus(list: seq<ListedComplaint>, id: string, answer: StatusAnswer): (r: seq<ListedComplaint>)
    ensures answer.CallFailed? ==> r == list
    ensures answer.Updated? ==> r == PatchStatus(list, id, answer.status)
  {
    match answer
    case CallFailed => list
    case Updated(status) => PatchStatus(list, id, status)
  }

  /** Patching twice with the same status leaves what patching once leaves. */
  lemma {:induction false} PatchStatusIdempotent(list: seq<ListedComplaint>, id: string, status: MaybeString)
    ensures PatchStatus(PatchStatus(list, id, status), id, status) == PatchStatus(list, id, status)
  {
    if list != [] {
      PatchStatusIdempotent(list[1..], id, status);
      assert PatchStatus(list, id, status)[1..] == PatchStatus(list[1..], id, status);
    }
  }

  const Yellow := "bg-yellow-100 text-yellow-800"
  const Blue := "bg-blue-100 text-blue-800"
  const Green := "bg-green-100 text-green-800"
  const Gray := "bg-gray-100 text-gray-800"

  /** `getStatusColor`. */
  function StatusColor(status: MaybeString): (c: string)
    ensures status == Some("Pending") ==> c == Yellow
    ensures status == Some("In Progress") ==> c == Blue
    ensures status == Some("Resolved") ==> c == Green
  {
    match status
    case Some("Pending") => Yellow
    case Some("In Progress") => Blue
    case Some("Resolved") => Green
    case _ => Gray
  }

  /**
   * The three statuses the schema allows get three distinct colours, and
   * anything else (an absent status included) is gray.
   */
  lemma StatusColorCoversSchema(status: MaybeString)
    ensures StatusColor(status) != Gray <==> status.Some? && status.value in ComplaintSchema.Statuses
    ensures StatusColor(Some("Pending")) != StatusColor(Some("In Progress"))
    ensures StatusColor(Some("In Progress")) != StatusColor(Some("Resolved"))
    ensures StatusColor(Some("Pending")) != StatusColor(Some("Resolved"))
  {
  }
}
