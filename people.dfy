/** The intern and tutor rows the backend returns (`Stagiaire`, `Tuteur`
    of lib/api-client.ts: an optional numeric id, the CIN and the two name
    parts), with the search and delete-by-id rules both list pages share. */
module People {

  import opened Wrappers
  import opened Text
  import opened Seqs

  datatype Person = Person(id: Option<int>, cin: String, nom: String, prenom: String)

  /** One row matches a lowered search term when its lowered CIN, last name
      or first name contains it. */
  predicate MatchesSearch(p: Person, lowerTerm: String) {
    Contains(Lower(p.cin), lowerTerm) || Contains(Lower(p.nom), lowerTerm)
    || Contains(Lower(p.prenom), lowerTerm)
  }

  /** The search effect: a blank term shows every row; otherwise the rows
      matching the lowered, untrimmed term. */
  function SearchFilter(rows: seq<Person>, searchTerm: String): (r: seq<Person>)
    ensures IsBlank(searchTerm) ==> r == rows
  {
    if IsBlank(searchTerm) then rows
    else Filter(rows, (p: Person) => MatchesSearch(p, Lower(searchTerm)))
  }

  /** What the search keeps: exactly the matching rows, in their order. */
  lemma SearchFilterSound(rows: seq<Person>, searchTerm: String, p: Person)
    requires !IsBlank(searchTerm)
    ensures p in SearchFilter(rows, searchTerm) <==> p in rows && MatchesSearch(p, Lower(searchTerm))
    ensures IsSubsequence(SearchFilter(rows, searchTerm), rows)
  {
    var keep := (q: Person) => MatchesSearch(q, Lower(searchTerm));
    FilterMembership(rows, keep, p);
    FilterIsSubsequence(rows, keep);
  }

  /** `rows.filter(s => s.id !== id)`. */
  function RemoveById(rows: seq<Person>, id: Option<int>): (r: seq<Person>)
  {
    Filter(rows, (p: Person) => p.id != id)
  }

  /** After removal no row carries the id, every other row stays, and the
      order is kept. */
  lemma RemoveByIdSound(rows: seq<Person>, id: Option<int>, p: Person)
    ensures p in RemoveById(rows, id) <==> p in rows && p.id != id
    ensures IsSubsequence(RemoveById(rows, id), rows)
  {
    FilterMembership(rows, (q: Person) => q.id != id, p);
    FilterIsSubsequence(rows, (q: Person) => q.id != id);
  }

  /** Removing rows from the full list and re-running the search gives the
      same list as removing them from the search result. */
  lemma RemoveCommutesWithSearch(rows: seq<Person>, searchTerm: String, id: Option<int>)
    ensures SearchFilter(RemoveById(rows, id), searchTerm) == RemoveById(SearchFilter(rows, searchTerm), id)
  {
    if !IsBlank(searchTerm) {
      FilterCommutes(rows, (q: Person) => q.id != id, (p: Person) => MatchesSearch(p, Lower(searchTerm)));
    }
  }
}
