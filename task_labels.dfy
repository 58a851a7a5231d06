/**
 * The label editor of a task: labels are skill labels kept as a list of
 * strings; a menu offers the skills not yet used, and labels are deleted or
 * toggled by building a new list that is reported through `onChange`.
 */
module TaskLabels {
  import opened Common
  import opened SkillsApi

  /** Keeps the items other than `label`. */
  function NotLabel(labelText: string): string -> bool
  {
    item => item != labelText
  }

  /** `labels.filter(item => item !== label)`. */
  function RemoveLabel(labels: seq<string>, labelText: string): (r: seq<string>)
    ensures labelText !in r
    ensures forall x :: x in r <==> x in labels && x != labelText
    ensures IsSubsequence(r, labels)
  {
    Filter(labels, NotLabel(labelText))
  }

  /** Removal deletes every occurrence of the label and keeps every other label as often as before. */
  lemma RemoveLabelCounts(labels: seq<string>, labelText: string)
    ensures forall x :: multiset(RemoveLabel(labels, labelText))[x] == if x == labelText then 0 else multiset(labels)[x]
  {
    FilterCounts(labels, NotLabel(labelText));
  }

  /** Removing a label that is not there changes nothing. */
  lemma RemoveAbsentLabel(labels: seq<string>, labelText: string)
    requires labelText !in labels
    ensures RemoveLabel(labels, labelText) == labels
  {
    FilterAllPass(labels, NotLabel(labelText));
  }

  /** The list a toggle produces: the label removed when present, appended at the end when absent. */
  function Toggled(labels: seq<string>, labelText: string): (r: seq<string>)
    ensures labelText in labels ==> r == RemoveLabel(labels, labelText)
    ensures labelText !in labels ==> r == labels + [labelText]
    ensures labelText in r <==> labelText !in labels
  {
    if labelText in labels then RemoveLabel(labels, labelText) else labels + [labelText]
  }

  /** Toggling an absent label twice gives back the original list. */
  lemma ToggleTwiceRestores(labels: seq<string>, labelText: string)
    requires labelText !in labels
    ensures Toggled(Toggled(labels, labelText), labelText) == labels
  {
    FilterConcat(labels, [labelText], NotLabel(labelText));
    RemoveAbsentLabel(labels, labelText);
    assert Filter([labelText], NotLabel(labelText)) == [];
  }

  /**
   * The toggle as the component writes it: `labels.find` yields the matching
   * item, and the label is removed only when that item is truthy, which the
   * empty string is not.
   */
  function ToggledAsWritten(labels: seq<string>, labelText: string): (r: seq<string>)
    ensures labelText != "" ==> r == Toggled(labels, labelText)
    ensures labelText == "" ==> r == labels + [labelText]
  {
    if labelText in labels && labelText != "" then RemoveLabel(labels, labelText) else labels + [labelText]
  }

  /** With the empty label present, the written toggle appends a second copy instead of removing it. */
  lemma EmptyLabelToggleAppends()
    ensures ToggledAsWritten([""], "") == ["", ""]
    ensures Toggled([""], "") == []
  {
    assert Filter([""], NotLabel("")) == [];
  }

  /** The outward effects of a label handler, in order. */
  datatype LabelEffect = ClosePopover | LabelsChanged(labels: seq<string>)

  /** Deleting a chip: the list without the label is reported, when a listener is attached. */
  function HandleDelete(labels: seq<string>, labelText: string, hasOnChange: bool): (r: seq<LabelEffect>)
    ensures hasOnChange ==> r == [LabelsChanged(RemoveLabel(labels, labelText))]
    ensures !hasOnChange ==> r == []
  {
    if hasOnChange then [LabelsChanged(RemoveLabel(labels, labelText))] else []
  }

  /**
   * Toggling from the menu: the popover closes first, then the list the
   * component computes is reported once.
   */
  function HandleToggle(labels: seq<string>, labelText: string, hasOnChange: bool): (r: seq<LabelEffect>)
    ensures |r| >= 1 && r[0] == ClosePopover
    ensures hasOnChange ==> r == [ClosePopover, LabelsChanged(ToggledAsWritten(labels, labelText))]
    ensures hasOnChange && labelText != "" ==> r == [ClosePopover, LabelsChanged(Toggled(labels, labelText))]
    ensures !hasOnChange ==> r == [ClosePopover]
  {
    [ClosePopover] + (if hasOnChange then [LabelsChanged(ToggledAsWritten(labels, labelText))] else [])
  }

  /** A skill is offered when its label is not already on the task. */
  function NotChosen(labels: seq<string>): Skill -> bool
  {
    (option: Skill) => option.skillLabel !in labels
  }

  /** The menu entries: the fetched skills whose label is not on the task, in skill order. */
  function AvailableOptions(skills: seq<Skill>, labels: seq<string>): (r: seq<Skill>)
    ensures forall s :: s in r <==> s in skills && s.skillLabel !in labels
    ensures forall s :: multiset(r)[s] == if s.skillLabel !in labels then multiset(skills)[s] else 0
    ensures IsSubsequence(r, skills)
  {
    FilterCounts(skills, NotChosen(labels));
    Filter(skills, NotChosen(labels))
  }

  /** The add button shows exactly when some fetched skill is not yet a label. */
  function CanAdd(skills: seq<Skill>, labels: seq<string>): (b: bool)
    ensures b <==> exists s :: s in skills && s.skillLabel !in labels
  {
    |AvailableOptions(skills, labels)| > 0
  }

  /**
   * Picking an offered skill appends its label (the written toggle and the
   * intended one agree here, since an offered label is never on the task),
   * and that skill is then no longer offered; toggling it again removes it.
   */
  lemma PickFromMenu(skills: seq<Skill>, labels: seq<string>, option: Skill)
    requires option in AvailableOptions(skills, labels)
    ensures HandleToggle(labels, option.skillLabel, true)
         == [ClosePopover, LabelsChanged(labels + [option.skillLabel])]
    ensures Toggled(labels, option.skillLabel) == labels + [option.skillLabel]
    ensures option !in AvailableOptions(skills, Toggled(labels, option.skillLabel))
    ensures Toggled(Toggled(labels, option.skillLabel), option.skillLabel) == labels
  {
    ToggleTwiceRestores(labels, option.skillLabel);
  }
}
