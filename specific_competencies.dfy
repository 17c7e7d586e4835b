/** The specific-competencies page: five name/level rows edited in a copy
    of the draft's list, and the loop that pads the list to five rows
    before rendering. A slot is `None` where the list has a hole (an index
    past its end was assigned). */
module SpecificCompetenciesPage {

  import opened Wrappers
  import opened Text
  import opened FormTypes

  type Slot = Option<SpecificCompetency>

  /** The list after `handleCompetencyNameChange(index, value)`: an existing
      entry keeps its level and takes the name; a hole or a slot past the
      end gets `{value, "DEBUTANT"}`, and assigning past the end leaves
      holes in between. Every other slot is unchanged. */
  function WithName(slots: seq<Slot>, index: nat, value: String): (r: seq<Slot>)
    ensures |r| == if index < |slots| then |slots| else index + 1
    ensures r[index] == Some(if index < |slots| && slots[index].Some?
                             then slots[index].value.(name := value)
                             else SpecificCompetency(value, "DEBUTANT"))
    ensures forall j :: 0 <= j < |r| && j != index ==> r[j] == if j < |slots| then slots[j] else None
  {
    var entry := if index < |slots| && slots[index].Some?
                 then slots[index].value.(name := value)
                 else SpecificCompetency(value, "DEBUTANT");
    Assign(slots, index, Some(entry))
  }

  /** The list after `handleCompetencyLevelChange(index, value)`: an
      existing entry keeps its name; a new one has name "". */
  function WithLevel(slots: seq<Slot>, index: nat, value: String): (r: seq<Slot>)
    ensures |r| == if index < |slots| then |slots| else index + 1
    ensures r[index] == Some(if index < |slots| && slots[index].Some?
                             then slots[index].value.(level := value)
                             else SpecificCompetency("", value))
    ensures forall j :: 0 <= j < |r| && j != index ==> r[j] == if j < |slots| then slots[j] else None
  {
    var entry := if index < |slots| && slots[index].Some?
                 then slots[index].value.(level := value)
                 else SpecificCompetency("", value);
    Assign(slots, index, Some(entry))
  }

  /** `array[index] = v` on a copy of a JavaScript array. */
  function Assign(slots: seq<Slot>, index: nat, v: Slot): (r: seq<Slot>)
    ensures |r| == if index < |slots| then |slots| else index + 1
    ensures r[index] == v
    ensures forall j :: 0 <= j < |r| && j != index ==> r[j] == if j < |slots| then slots[j] else None
  {
    if index < |slots| then slots[index := v]
    else slots + seq(index - |slots|, _ => None) + [v]
  }

  /** The blank row the pad loop pushes. */
  const BlankRow: SpecificCompetency := SpecificCompetency("", "DEBUTANT")

  /** The list padded with blank rows up to five entries. */
  function Padded(slots: seq<Slot>): seq<Slot> {
    if |slots| >= 5 then slots else slots + seq(5 - |slots|, _ => Some(BlankRow))
  }

  /** Padding keeps the list as a prefix, fills the rest with blank rows,
      reaches at least five entries, and does nothing to a list that
      already has five. */
  lemma PaddedShape(slots: seq<Slot>)
    ensures |Padded(slots)| >= 5 && |Padded(slots)| == if |slots| >= 5 then |slots| else 5
    ensures Padded(slots)[..|slots|] == slots
    ensures forall j :: |slots| <= j < |Padded(slots)| ==> Padded(slots)[j] == Some(BlankRow)
    ensures |slots| >= 5 ==> Padded(slots) == slots
  {
  }

  lemma PaddedIdempotent(slots: seq<Slot>)
    ensures Padded(Padded(slots)) == Padded(slots)
  {
    PaddedShape(slots);
  }

  /** Editing one of the five rows of a padded list that has no hole
      leaves a list with no hole and the same length. */
  lemma RowEditsKeepListWhole(slots: seq<Slot>, index: nat, value: String)
    requires |slots| >= 5 && index < 5
    requires forall j :: 0 <= j < |slots| ==> slots[j].Some?
    ensures var n := WithName(slots, index, value); |n| == |slots| && forall j :: 0 <= j < |n| ==> n[j].Some?
    ensures var l := WithLevel(slots, index, value); |l| == |slots| && forall j :: 0 <= j < |l| ==> l[j].Some?
  {
  }

  /** The slots of a list without holes. */
  function Whole(cs: seq<SpecificCompetency>): (r: seq<Slot>)
    ensures |r| == |cs| && forall j :: 0 <= j < |cs| ==> r[j] == Some(cs[j])
  {
    seq(|cs|, j requires 0 <= j < |cs| => Some(cs[j]))
  }

  /** The initial draft's five blank rows need no padding. */
  lemma InitialRowsNeedNoPadding()
    ensures Padded(Whole(InitialFormData.specificCompetencies)) == Whole(InitialFormData.specificCompetencies)
    ensures forall j :: 0 <= j < 5 ==> Whole(InitialFormData.specificCompetencies)[j] == Some(BlankRow)
  {
    InitialFormDataShape();
  }

  /** A row edit followed by the other kind of edit on the same row sets
      both fields, whatever the row held before. */
  lemma NameThenLevel(slots: seq<Slot>, index: nat, name: String, level: String)
    ensures WithLevel(WithName(slots, index, name), index, level)[index] == Some(SpecificCompetency(name, level))
    ensures WithName(WithLevel(slots, index, level), index, name)[index] == Some(SpecificCompetency(name, level))
  {
  }

  /** The page's view of the draft: `specificCompetencies` may be absent. */
  class SpecificCompetenciesView {
    var specificCompetencies: Option<seq<Slot>>

    constructor (specificCompetencies: Option<seq<Slot>>)
      ensures this.specificCompetencies == specificCompetencies
    {
      this.specificCompetencies := specificCompetencies;
    }

    /** `prev.specificCompetencies || []`. */
    function Current(): seq<Slot>
      reads this
    {
      if specificCompetencies.Some? then specificCompetencies.value else []
    }

    method HandleCompetencyNameChange(index: nat, value: String)
      modifies this
      ensures specificCompetencies == Some(WithName(old(Current()), index, value))
    {
      var copy := Current();
      var entry;
      if index < |copy| && copy[index].Some? {
        entry := copy[index].value.(name := value);
      } else {
        entry := SpecificCompetency(value, "DEBUTANT");
      }
      copy := Assign(copy, index, Some(entry));
      specificCompetencies := Some(copy);
    }

    method HandleCompetencyLevelChange(index: nat, value: String)
      modifies this
      ensures specificCompetencies == Some(WithLevel(old(Current()), index, value))
    {
      var copy := Current();
      var entry;
      if index < |copy| && copy[index].Some? {
        entry := copy[index].value.(level := value);
      } else {
        entry := SpecificCompetency("", value);
      }
      copy := Assign(copy, index, Some(entry));
      specificCompetencies := Some(copy);
    }

    /** The render-time `while (competencies.length < 5) push(...)`.
        When the draft holds a list, the pushes go into that very list;
        when it holds none, they go into a fresh local list and the draft
        stays without one. */
    method PadRows() returns (competencies: seq<Slot>)
      modifies this
      ensures competencies == Padded(old(Current()))
      ensures specificCompetencies == if old(specificCompetencies).Some? then Some(competencies) else None
    {
      competencies := Current();
      ghost var original := competencies;
      while |competencies| < 5
        invariant |original| <= |competencies| <= if |original| >= 5 then |original| else 5
        invariant competencies == original + seq(|competencies| - |original|, _ => Some(BlankRow))
        invariant specificCompetencies == if old(specificCompetencies).Some? then Some(competencies) else None
        decreases 5 - |competencies|
      {
        competencies := competencies + [Some(BlankRow)];
        if specificCompetencies.Some? {
          specificCompetencies := Some(competencies);
        }
      }
    }
  }
}
