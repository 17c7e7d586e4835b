/** The intern and tutor list pages. Both keep the full list, the list on
    screen, the search term, and the delete dialog with the row it would
    delete; they differ only in the wording of their messages, so one
    class models both, fixed to a `ListKind` at construction. */
module PersonLists {

  import opened Wrappers
  import opened Text
  import opened Seqs
  import opened People
  import opened Toasts

  datatype ListKind = Interns | Tutors

  /** What the delete call gives: the backend's boolean, or an exception. */
  datatype DeleteReply = Deleted(success: bool) | Threw

  function DeletedToast(kind: ListKind): Toast {
    match kind
    case Interns => Toast("Stagiaire supprimé", "Le stagiaire a été supprimé avec succès", false)
    case Tutors => Toast("Tuteur supprimé", "Le tuteur a été supprimé avec succès", false)
  }

  function NotDeletedToast(kind: ListKind): Toast {
    match kind
    case Interns => Toast("Erreur", "Le stagiaire n'a pas pu être supprimé", true)
    case Tutors => Toast("Erreur", "Le tuteur n'a pas pu être supprimé", true)
  }

  const DeleteErrorToast := Toast("Erreur", "Une erreur est survenue lors de la suppression", true)

  /** `!row.id` is false: the id is present and not 0. */
  predicate HasId(p: Person) {
    p.id.Some? && p.id.value != 0
  }

  class PersonList {
    const kind: ListKind
    var rows: seq<Person>
    var filtered: seq<Person>
    var searchTerm: String
    var deleteConfirmOpen: bool
    var toDelete: Option<Person>
    var isDeleting: bool
    /** The ids passed to the delete call, in order. */
    ghost var deleteCalls: seq<int>

    /** Once the search effect has run, the list on screen is the search
        result over the full list. */
    ghost predicate Valid()
      reads this
    {
      filtered == SearchFilter(rows, searchTerm) && !isDeleting
    }

    constructor (kind: ListKind)
      ensures Valid() && this.kind == kind
      ensures rows == [] && filtered == [] && searchTerm == ""
      ensures !deleteConfirmOpen && toDelete == None && deleteCalls == []
    {
      this.kind := kind;
      rows := [];
      filtered := [];
      searchTerm := "";
      deleteConfirmOpen := false;
      toDelete := None;
      isDeleting := false;
      deleteCalls := [];
    }

    /** The search effect, run whenever the term or the full list changes. */
    method ApplySearch()
      modifies this
      ensures filtered == SearchFilter(rows, searchTerm)
      ensures rows == old(rows) && searchTerm == old(searchTerm) && isDeleting == old(isDeleting)
      ensures deleteConfirmOpen == old(deleteConfirmOpen) && toDelete == old(toDelete)
      ensures deleteCalls == old(deleteCalls)
    {
      if IsBlank(searchTerm) {
        filtered := rows;
        return;
      }
      var lowerSearchTerm := Lower(searchTerm);
      filtered := Filter(rows, (p: Person) => MatchesSearch(p, lowerSearchTerm));
    }

    /** Typing in the search box, followed by the effect. */
    method ChangeSearchTerm(term: String)
      requires Valid()
      modifies this
      ensures Valid()
      ensures searchTerm == term && rows == old(rows) && filtered == SearchFilter(rows, term)
      ensures deleteConfirmOpen == old(deleteConfirmOpen) && toDelete == old(toDelete)
      ensures deleteCalls == old(deleteCalls)
    {
      searchTerm := term;
      ApplySearch();
    }

    /** The fetch on mount succeeded with `fetched`: both lists are set to
        it, and the effect then filters with the current term. */
    method Load(fetched: seq<Person>)
      requires Valid()
      modifies this
      ensures Valid()
      ensures rows == fetched && searchTerm == old(searchTerm)
      ensures deleteConfirmOpen == old(deleteConfirmOpen) && toDelete == old(toDelete)
      ensures deleteCalls == old(deleteCalls)
    {
      rows := fetched;
      filtered := fetched;
      ApplySearch();
    }

    /** `confirmDelete(row)`: opens the dialog on that row. */
    method ConfirmDelete(p: Person)
      requires Valid()
      modifies this
      ensures Valid()
      ensures toDelete == Some(p) && deleteConfirmOpen
      ensures rows == old(rows) && filtered == old(filtered) && searchTerm == old(searchTerm)
      ensures deleteCalls == old(deleteCalls)
    {
      toDelete := Some(p);
      deleteConfirmOpen := true;
    }

    /** `handleDelete`, with the delete call's reply given. Without a
        selected row carrying an id it returns at once, leaving even the
        dialog open. Otherwise it calls delete once; on success every row
        with that id leaves both lists; on `false` or an exception both
        lists stay; in all three cases the dialog closes and the selection
        is cleared. */
    method HandleDelete(reply: DeleteReply) returns (toast: Option<Toast>)
      requires Valid()
      modifies this
      ensures Valid()
      ensures searchTerm == old(searchTerm)
      ensures old(toDelete).None? || !HasId(old(toDelete).value) ==>
        toast == None && rows == old(rows) && filtered == old(filtered)
        && deleteConfirmOpen == old(deleteConfirmOpen) && toDelete == old(toDelete)
        && deleteCalls == old(deleteCalls)
      ensures old(toDelete).Some? && HasId(old(toDelete).value) ==>
        var id := old(toDelete).value.id;
        && deleteCalls == old(deleteCalls) + [id.value]
        && !deleteConfirmOpen && toDelete == None
        && (reply == Deleted(true) ==>
              rows == RemoveById(old(rows), id) && filtered == RemoveById(old(filtered), id)
              && toast == Some(DeletedToast(kind)))
        && (reply == Deleted(false) ==>
              rows == old(rows) && filtered == old(filtered) && toast == Some(NotDeletedToast(kind)))
        && (reply == Threw ==>
              rows == old(rows) && filtered == old(filtered) && toast == Some(DeleteErrorToast))
    {
      if toDelete.None? || !HasId(toDelete.value) {
        return None;
      }
      var id := toDelete.value.id;
      isDeleting := true;
      deleteCalls := deleteCalls + [id.value];
      match reply {
        case Deleted(success) =>
          if success {
            RemoveCommutesWithSearch(rows, searchTerm, id);
            filtered := RemoveById(filtered, id);
            rows := RemoveById(rows, id);
            toast := Some(DeletedToast(kind));
          } else {
            toast := Some(NotDeletedToast(kind));
          }
        case Threw =>
          toast := Some(DeleteErrorToast);
      }
      isDeleting := false;
      deleteConfirmOpen := false;
      toDelete := None;
    }
  }

  /** After a successful delete the screen shows what a fresh search over
      the shortened list gives, so the later run of the search effect does
      not change it; and the deleted id is gone from it. */
  lemma DeleteAgreesWithSearch(rows: seq<Person>, searchTerm: String, id: Option<int>, p: Person)
    ensures RemoveById(SearchFilter(rows, searchTerm), id) == SearchFilter(RemoveById(rows, id), searchTerm)
    ensures p in RemoveById(SearchFilter(rows, searchTerm), id) ==> p.id != id && p in rows
  {
    RemoveCommutesWithSearch(rows, searchTerm, id);
    RemoveByIdSound(SearchFilter(rows, searchTerm), id, p);
    if !IsBlank(searchTerm) {
      SearchFilterSound(rows, searchTerm, p);
    }
  }
}
