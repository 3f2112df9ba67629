/**
 * The "Where Are We?" relationship tracker: a form that logs interactions with people at the
 * front of a list, and the two label/colour maps the list is rendered with. Unlike the other
 * pages, the tracker does not trim: any non-empty person and description are accepted.
 */
module RelationshipTracker {

  /** One logged interaction; `kind` is the source's `type` field. */
  datatype Interaction = Interaction(
    id: string, person: string, kind: string, description: string, date: string, energy: string)

  /** The "Log New Interaction" form. */
  datatype InteractionForm = InteractionForm(person: string, kind: string, description: string, energy: string)

  /** The options of the form's type selector, in the order shown. */
  const InteractionTypes: seq<string> := ["reached-out", "they-reached", "quality-time", "conflict", "support"]

  /** The form's energy buttons, in the order shown. */
  const EnergyLevels: seq<string> := ["low", "medium", "high"]

  /** The form as first shown and after every successful add. */
  const BlankForm := InteractionForm("", "reached-out", "", "medium")

  /** The two interactions the page starts with. */
  const SeedInteractions: seq<Interaction> := [
    Interaction("1", "Sarah", "they-reached", "Called to check in after my presentation", "2024-01-15", "high"),
    Interaction("2", "Mom", "reached-out", "Sent flowers for her birthday", "2024-01-12", "high")
  ]

  /** The add button's guard: both text fields non-empty (JavaScript truthiness, no trimming). */
  predicate IsComplete(f: InteractionForm) {
    f.person != "" && f.description != ""
  }

  /** The interaction built from the form, with the clock's id and date. */
  function FromForm(f: InteractionForm, id: string, date: string): (r: Interaction)
    ensures r.person == f.person && r.kind == f.kind && r.description == f.description
    ensures r.energy == f.energy && r.id == id && r.date == date
  {
    Interaction(id, f.person, f.kind, f.description, date, f.energy)
  }

  /** `getTypeLabel`: the badge text of an interaction type. */
  function TypeLabel(kind: string): (badge: string) {
    match kind
    case "reached-out" => "You reached out"
    case "they-reached" => "They reached out"
    case "quality-time" => "Quality time"
    case "conflict" => "Conflict/tension"
    case "support" => "Offered support"
    case _ => kind
  }

  /** The five known types get five distinct fixed labels, none equal to the type itself; any
      other string is shown as it is. */
  lemma TypeLabelCases(kind: string)
    ensures TypeLabel(kind) == kind <==> kind !in InteractionTypes
    ensures forall i, j | 0 <= i < j < |InteractionTypes| ::
      TypeLabel(InteractionTypes[i]) != TypeLabel(InteractionTypes[j])
  {
  }

  /** `getEnergyColor`: the badge classes of an energy level. */
  function EnergyColor(energy: string): (classes: string) {
    match energy
    case "high" => "bg-growth text-foreground"
    case "medium" => "bg-warmth text-foreground"
    case "low" => "bg-muted text-muted-foreground"
    case _ => "bg-muted text-muted-foreground"
  }

  /** High, medium and low are told apart; anything that is neither high nor medium, known or
      not, is shown muted like low. */
  lemma EnergyColorCases(energy: string)
    ensures EnergyColor("high") != EnergyColor("medium")
    ensures EnergyColor(energy) == EnergyColor("low") <==> energy != "high" && energy != "medium"
  {
  }

  /** What every logged interaction satisfies: non-empty person and description, and a type and
      energy the form can produce. */
  predicate IsLogged(i: Interaction) {
    i.person != "" && i.description != "" && i.kind in InteractionTypes && i.energy in EnergyLevels
  }

  class Tracker {
    var interactions: seq<Interaction>
    var newInteraction: InteractionForm
    var showForm: bool

    ghost predicate Valid()
      reads this
    {
      && (forall i | i in interactions :: IsLogged(i))
      && newInteraction.kind in InteractionTypes && newInteraction.energy in EnergyLevels
    }

    /** The page as first shown: the two seed interactions, a blank hidden form. */
    constructor ()
      ensures Valid()
      ensures interactions == SeedInteractions && newInteraction == BlankForm && !showForm
    {
      interactions, newInteraction, showForm := SeedInteractions, BlankForm, false;
    }

    /** "Add Interaction": with a complete form, put the new interaction in front of the list,
        reset the form and hide it; otherwise nothing changes. */
    method AddInteraction(id: string, date: string)
      requires Valid()
      modifies this
      ensures Valid()
      ensures IsComplete(old(newInteraction)) ==>
        && interactions == [FromForm(old(newInteraction), id, date)] + old(interactions)
        && newInteraction == BlankForm && !showForm
      ensures !IsComplete(old(newInteraction)) ==>
        interactions == old(interactions) && newInteraction == old(newInteraction) && showForm == old(showForm)
    {
      if IsComplete(newInteraction) {
        var interaction := FromForm(newInteraction, id, date);
        interactions := [interaction] + interactions;
        newInteraction := BlankForm;
        showForm := false;
      }
    }

    /** "Log Interaction": show or hide the form. */
    method ToggleForm()
      modifies this`showForm
      ensures showForm == !old(showForm)
    {
      showForm := !showForm;
    }

    /** "Cancel": hide the form, keeping what was typed. */
    method CancelForm()
      modifies this`showForm
      ensures !showForm
    {
      showForm := false;
    }

    /** Typing in the person field. */
    method EditPerson(person: string)
      modifies this`newInteraction
      ensures newInteraction == old(newInteraction).(person := person)
    {
      newInteraction := newInteraction.(person := person);
    }

    /** Typing in the description field. */
    method EditDescription(description: string)
      modifies this`newInteraction
      ensures newInteraction == old(newInteraction).(description := description)
    {
      newInteraction := newInteraction.(description := description);
    }

    /** Choosing option `k` of the type selector. */
    method SelectType(k: nat)
      requires Valid() && k < |InteractionTypes|
      modifies this`newInteraction
      ensures Valid()
      ensures newInteraction == old(newInteraction).(kind := InteractionTypes[k])
    {
      newInteraction := newInteraction.(kind := InteractionTypes[k]);
    }

    /** Clicking energy button `k`. */
    method SelectEnergy(k: nat)
      requires Valid() && k < |EnergyLevels|
      modifies this`newInteraction
      ensures Valid()
      ensures newInteraction == old(newInteraction).(energy := EnergyLevels[k])
    {
      newInteraction := newInteraction.(energy := EnergyLevels[k]);
    }
  }

  /** Three interactions logged one after the other on a fresh page are listed newest first,
      in front of the seed interactions. */
  method LogThree(a: InteractionForm, b: InteractionForm, c: InteractionForm) returns (log: seq<Interaction>)
    requires IsComplete(a) && IsComplete(b) && IsComplete(c)
    requires a.kind in InteractionTypes && b.kind in InteractionTypes && c.kind in InteractionTypes
    requires a.energy in EnergyLevels && b.energy in EnergyLevels && c.energy in EnergyLevels
    ensures log == [FromForm(c, "c", "d3"), FromForm(b, "b", "d2"), FromForm(a, "a", "d1")] + SeedInteractions
  {
    var t := new Tracker();
    Fill(t, a);
    t.AddInteraction("a", "d1");
    Fill(t, b);
    t.AddInteraction("b", "d2");
    Fill(t, c);
    t.AddInteraction("c", "d3");
    log := t.interactions;
  }

  /** Fills the form of `t` with `f` through its input handlers. */
  method Fill(t: Tracker, f: InteractionForm)
    requires t.Valid() && f.kind in InteractionTypes && f.energy in EnergyLevels
    modifies t
    ensures t.Valid() && t.newInteraction == f && t.interactions == old(t.interactions)
  {
    t.EditPerson(f.person);
    t.EditDescription(f.description);
    var k :| 0 <= k < |InteractionTypes| && InteractionTypes[k] == f.kind;
    t.SelectType(k);
    var e :| 0 <= e < |EnergyLevels| && EnergyLevels[e] == f.energy;
    t.SelectEnergy(e);
  }
}
