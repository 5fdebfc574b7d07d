/** The pure list and record transforms behind the admin panel's handlers:
    the form draft, the placeholder image, create (prepend), update (map by
    id with a field merge), delete (filter by id) and tag removal (filter by
    value). */
module ProjectList {
  import opened Types
  import opened JsString
  import opened JsArray

  /** Image used when a record is saved without one. */
  const Placeholder: string := "https://picsum.photos/800/600"

  /** Fallback text for the image prompt when the draft has no description. */
  const DefaultScene: string := "A video game scene"

  /** The in-progress form: the fields of a record the form edits. It has no
      `id` (held separately as the id being edited) and no `status` (the form
      never sets one). */
  datatype Draft = Draft(
    title: string,
    description: string,
    category: Category,
    technologies: seq<string>,
    imageUrl: string,
    link: Option<string>)

  /** The form's initial and reset value. */
  const EmptyDraft: Draft := Draft("", "", PC, [], "", None)

  /** Save is allowed only when both title and description are non-empty
      (empty strings are falsy); in particular a reset draft cannot be saved. */
  predicate CanSave(d: Draft)
    ensures d.title == EmptyDraft.title || d.description == EmptyDraft.description ==> !CanSave(d)
  {
    d.title != "" && d.description != ""
  }

  /** The image a save stores: the draft's when it is non-empty, the
      placeholder otherwise; never empty. */
  function FinalImage(url: string): (r: string)
    ensures r != ""
    ensures url != "" ==> r == url
    ensures url == "" ==> r == Placeholder
  {
    if url != "" then url else Placeholder
  }

  /** The editable fields of `q` are the draft's, with the image defaulted. */
  predicate HoldsDraft(q: Project, d: Draft)
  {
    q.title == d.title && q.description == d.description &&
    q.category == d.category && q.technologies == d.technologies &&
    q.link == d.link && q.imageUrl == FinalImage(d.imageUrl)
  }

  /** The draft `handleEdit` loads from a record: it shows exactly the
      record's editable fields, so a record with an image holds its own
      draft and merging it back changes nothing (without an image, merging
      it back only defaults the image), and the draft can be saved exactly when the record has a title
      and a description. */
  function DraftOf(p: Project): (r: Draft)
    ensures Merge(p, r, p.id) == p.(imageUrl := FinalImage(p.imageUrl))
    ensures p.imageUrl != "" ==> HoldsDraft(p, r) && Merge(p, r, p.id) == p
    ensures r.imageUrl == p.imageUrl
    ensures CanSave(r) <==> p.title != "" && p.description != ""
  {
    Draft(p.title, p.description, p.category, p.technologies, p.imageUrl, p.link)
  }

  /** The record a create builds from the draft and a freshly minted id:
      the draft's fields, that id and no status. */
  function NewRecord(id: string, d: Draft): (r: Project)
    ensures r.id == id && r.status == None && HoldsDraft(r, d)
  {
    Project(id, d.title, d.description, FinalImage(d.imageUrl), d.technologies, d.category, d.link, None)
  }

  /** `{ ...p, ...draft, imageUrl: finalImage, id: editingId }`: the draft's
      fields, the given id, and `p`'s status, a key the draft never has. */
  function Merge(p: Project, d: Draft, id: string): (r: Project)
    ensures r.id == id && r.status == p.status && HoldsDraft(r, d)
  {
    Project(id, d.title, d.description, FinalImage(d.imageUrl), d.technologies, d.category, d.link, p.status)
  }

  /** `q` is `p` after taking the draft's fields: the id and the status (a
      field the draft lacks) are `p`'s, everything else is the draft's, with
      the image defaulted. */
  predicate TakesDraft(q: Project, p: Project, d: Draft)
  {
    q.id == p.id && q.status == p.status && HoldsDraft(q, d)
  }

  /** Create: the new record goes in front of the old list, which follows
      unchanged. The record has the given id, the draft's fields, the
      defaulted image and no status. */
  function Create(ps: seq<Project>, id: string, d: Draft): (r: seq<Project>)
    ensures |r| == |ps| + 1
    ensures r[1..] == ps
    ensures r[0].id == id && r[0].status == None
    ensures r[0].title == d.title && r[0].description == d.description
    ensures r[0].category == d.category && r[0].technologies == d.technologies
    ensures r[0].link == d.link && r[0].imageUrl == FinalImage(d.imageUrl)
  {
    [NewRecord(id, d)] + ps
  }

  /** Update: `ps.map(p => p.id === id ? merge : p)`. Length, order and every
      id are kept; records with another id are untouched; records with this
      id take the draft's fields; with no such record the list is unchanged. */
  function UpdateById(ps: seq<Project>, id: string, d: Draft): (r: seq<Project>)
    ensures |r| == |ps|
    ensures forall i :: 0 <= i < |ps| ==> r[i].id == ps[i].id
    ensures forall i :: 0 <= i < |ps| && ps[i].id != id ==> r[i] == ps[i]
    ensures forall i :: 0 <= i < |ps| && ps[i].id == id ==> TakesDraft(r[i], ps[i], d)
    ensures (forall i :: 0 <= i < |ps| ==> ps[i].id != id) ==> r == ps
  {
    Map(ps, (p: Project) => if p.id == id then Merge(p, d, id) else p)
  }

  /** Delete: `ps.filter(p => p.id !== id)`. No record with the id remains;
      every other record remains, as often as before, in its original
      relative order; deleting an absent id changes nothing. */
  function DeleteById(ps: seq<Project>, id: string): (r: seq<Project>)
    ensures forall i :: 0 <= i < |r| ==> r[i].id != id
    ensures forall p: Project :: p.id != id ==> multiset(r)[p] == multiset(ps)[p]
    ensures IsSubsequence(r, ps)
    ensures (forall i :: 0 <= i < |ps| ==> ps[i].id != id) ==> r == ps
  {
    Filter(ps, (p: Project) => p.id != id)
  }

  /** Tag removal: `ts.filter(tech => tech !== t)`. Every occurrence of the
      tag goes, every other tag stays as often as before and in order. */
  function RemoveTag(ts: seq<string>, t: string): (r: seq<string>)
    ensures t !in r
    ensures forall x: string :: x != t ==> multiset(r)[x] == multiset(ts)[x]
    ensures IsSubsequence(r, ts)
    ensures t !in ts ==> r == ts
  {
    Filter(ts, (x: string) => x != t)
  }

  /** The technology text sent to the description generator:
      `technologies.join(', ') || techInput`. The typed text is sent exactly
      when the join is empty, i.e. with no tags or a single empty tag. */
  function TechSummary(ts: seq<string>, techInput: string): (r: string)
    ensures ts == [] || ts == [""] ==> r == techInput
    ensures ts != [] && ts != [""] ==> r == Join(ts, ", ") && r != ""
  {
    var joined := Join(ts, ", ");
    if joined != "" then joined else techInput
  }

  /** The prompt sent to the image generator: the title, then ". ", then
      the description, or a stock scene when there is none, so the part after
      the title is never empty. */
  function ImagePrompt(d: Draft): (r: string)
    ensures |r| > |d.title| + 2
    ensures r[..|d.title|] == d.title && r[|d.title|..|d.title| + 2] == ". "
    ensures r[|d.title| + 2..] == if d.description != "" then d.description else DefaultScene
  {
    d.title + ". " + (if d.description != "" then d.description else DefaultScene)
  }

  /** Deleting is idempotent. */
  lemma DeleteIdempotent(ps: seq<Project>, id: string)
    ensures DeleteById(DeleteById(ps, id), id) == DeleteById(ps, id)
  {
  }

  /** Delete shortens the list by exactly the number of records carrying the id. */
  lemma {:induction false} DeleteCount(ps: seq<Project>, id: string)
    ensures |DeleteById(ps, id)| == |ps| - CountId(ps, id)
  {
    if ps != [] {
      DeleteCount(ps[1..], id);
      assert ps == [ps[0]] + ps[1..];
      assert DeleteById(ps, id) == (if ps[0].id != id then [ps[0]] else []) + DeleteById(ps[1..], id);
    }
  }

  /** How many records carry the id. */
  function CountId(ps: seq<Project>, id: string): nat
  {
    if ps == [] then 0 else (if ps[0].id == id then 1 else 0) + CountId(ps[1..], id)
  }

  /** Opening a record for editing and saving it untouched gives back the same
      list, provided the record has an image and its id is not shared. */
  lemma EditSaveUnchanged(ps: seq<Project>, p: Project)
    requires p.imageUrl != ""
    requires forall i :: 0 <= i < |ps| && ps[i].id == p.id ==> ps[i] == p
    ensures UpdateById(ps, p.id, DraftOf(p)) == ps
  {
  }

  /** Editing and saving a record without an image gives it the placeholder. */
  lemma EditSaveFillsPlaceholder(ps: seq<Project>, i: nat)
    requires i < |ps| && ps[i].imageUrl == ""
    ensures UpdateById(ps, ps[i].id, DraftOf(ps[i]))[i].imageUrl == Placeholder
  {
  }
}
