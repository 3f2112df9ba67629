/**
 * The Expression Scripts page: a fixed catalogue of conversation templates, a category filter
 * over it, and an inline editor. The editor's draft is page state shared by all cards; saving
 * closes the editor but stores nothing, so no script ever gets a customised text.
 */
module ExpressionScripts {
  import opened Js

  datatype ScriptCategory = ScriptCategory(id: string, title: string, description: string)

  /** A template; `customized` is the optional personalised text, absent in every catalogue entry. */
  datatype Script = Script(
    id: string, title: string, category: string, template: string, customized: Option<string>, tags: seq<string>)

  /** The filter value that shows the whole catalogue. */
  const AllScripts := "all"

  const Categories: seq<ScriptCategory> := [
    ScriptCategory("boundaries", "Boundary Setting", "Clear, kind ways to communicate your limits"),
    ScriptCategory("clarity", "Clarity Conversations", "Scripts for when you need to understand or be understood"),
    ScriptCategory("exit", "Graceful Exits", "Compassionate ways to step back or say goodbye")
  ]

  const Scripts: seq<Script> := [NeedSpace, SayingNo, Overshares, AskClarification, Confused, MixedSignals,
                                 EndingRomance, SteppingBack]

  const NeedSpace := Script("1", "When You Need Space", "boundaries", NeedSpaceText, None,
    ["space", "boundaries", "self-care"])
  const SayingNo := Script("2", "Saying No to Plans", "boundaries", SayingNoText, None,
    ["declining", "plans", "gratitude"])
  const Overshares := Script("3", "When Someone Overshares", "boundaries", OversharesText, None,
    ["oversharing", "redirection", "support"])
  const AskClarification := Script("4", "Asking for Clarification", "clarity", AskClarificationText, None,
    ["clarification", "understanding", "communication"])
  const Confused := Script("5", "When You're Confused", "clarity", ConfusedText, None,
    ["confusion", "help", "alignment"])
  const MixedSignals := Script("6", "Addressing Mixed Signals", "clarity", MixedSignalsText, None,
    ["mixed-signals", "directness", "honesty"])
  const EndingRomance := Script("7", "Ending a Romantic Relationship", "exit", EndingRomanceText, None,
    ["breakup", "honesty", "kindness"])
  const SteppingBack := Script("8", "Stepping Back from Friendship", "exit", SteppingBackText, None,
    ["friendship", "stepping-back", "well-wishes"])

  const NeedSpaceText := "I care about our [relationship/friendship] and I'm noticing I need some space to [recharge/process/think]. This isn't about you doing anything wrong - it's about me taking care of myself so I can show up better. Can we [specific ask, like 'check in next week' or 'text instead of call for a few days']?"
  const SayingNoText := "Thank you for thinking of me! I won't be able to [specific event/plan] because [brief, honest reason or just 'I have other commitments']. I hope you have a wonderful time, and I'd love to [alternative way to connect, if desired]."
  const OversharesText := "I can hear this is really important to you. I care about you, and I'm not the right person to help with this. Have you considered [therapist/counselor/other support]? I'm better at supporting you with [what you can offer instead]."
  const AskClarificationText := "I want to make sure I understand you correctly. When you said [specific thing], I heard [your interpretation]. Is that what you meant, or did I miss something?"
  const ConfusedText := "I'm feeling a bit confused about [specific situation]. Could you help me understand [specific question]? I want to make sure we're on the same page."
  const MixedSignalsText := "I'm getting some mixed signals and I'd rather just ask directly than assume. [Specific observation about the mixed signals]. Can you help me understand where things stand?"
  const EndingRomanceText := "I've been thinking a lot about us, and I need to be honest about where I'm at. I care about you, and I don't see this working long-term because [honest reason]. I think we both deserve [what you both deserve]. I'd like to [how you want to handle the transition]."
  const SteppingBackText := "I've been reflecting on our friendship, and I think I need to step back for a while. This isn't about anger or anything you did wrong - it's about [honest reason, like 'different life stages' or 'needing to focus my energy differently']. I wish you well."

  /** `filteredScripts`: the whole list under "all", otherwise the scripts of the selected
      category, each as often as in the list and in list order; empty (the "No scripts found"
      card) exactly when no script has that category. The page applies it to `Scripts`. */
  function FilteredScripts(scripts: seq<Script>, selected: string): (r: seq<Script>)
    ensures selected == AllScripts ==> r == scripts
    ensures selected != AllScripts ==> forall s :: s in r <==> s in scripts && s.category == selected
    ensures selected != AllScripts ==>
      forall x :: multiset(r)[x] == if x.category == selected then multiset(scripts)[x] else 0
    ensures IsSubsequence(r, scripts)
    ensures r == [] <==>
      if selected == AllScripts then scripts == [] else forall k | 0 <= k < |scripts| :: scripts[k].category != selected
  {
    if selected == AllScripts then
      assert IsSubsequence(scripts, scripts) by { SubsequenceRefl(scripts); }
      scripts
    else
      var r := Filter(scripts, (s: Script) => s.category == selected);
      FilterIsSubsequence(scripts, (s: Script) => s.category == selected);
      assert r == [] <== forall k | 0 <= k < |scripts| :: scripts[k].category != selected;
      assert r != [] ==> r[0] in scripts;
      r
  }

  lemma {:induction false} SubsequenceRefl<T>(s: seq<T>)
    ensures IsSubsequence(s, s)
  {
    if s != [] {
      SubsequenceRefl(s[1..]);
    }
  }

  /** Script ids are distinct, so at most one card has its editor open. */
  lemma ScriptIdsDistinct()
    ensures forall i, j | 0 <= i < j < |Scripts| :: Scripts[i].id != Scripts[j].id
  {
    assert forall k | 0 <= k < |Scripts| :: Scripts[k].id == [('1' as int + k) as char];
    forall i, j | 0 <= i < j < |Scripts|
      ensures Scripts[i].id != Scripts[j].id
    {
      assert Scripts[i].id[0] != Scripts[j].id[0];
    }
  }

  /** Every script's category has a filter button. */
  lemma ScriptCategoriesKnown()
    ensures forall s | s in Scripts :: exists c | c in Categories :: c.id == s.category
  {
    forall s | s in Scripts
      ensures exists c | c in Categories :: c.id == s.category
    {
      var k :| 0 <= k < |Scripts| && Scripts[k] == s;
      var c := Categories[if k < 3 then 0 else if k < 6 then 1 else 2];
      assert c in Categories && c.id == s.category;
    }
  }

  /** No category is called "all", and every category button shows at least one script. */
  lemma CategoriesNonEmpty()
    ensures forall c | c in Categories :: c.id != AllScripts && FilteredScripts(Scripts, c.id) != []
  {
    forall c | c in Categories
      ensures c.id != AllScripts && FilteredScripts(Scripts, c.id) != []
    {
      var k :| 0 <= k < |Categories| && Categories[k] == c;
      assert Scripts[3 * k].category == c.id;
    }
  }

  /** A script whose category is one of the three buttons. */
  predicate HasKnownCategory(x: Script) {
    exists c | c in Categories :: c.id == x.category
  }

  /** When every script has a button's category, the three category filters split the list:
      together they hold each script exactly as often as the list does. */
  lemma CategoryFiltersSplit(s: seq<Script>)
    requires forall x | x in s :: HasKnownCategory(x)
    ensures multiset(FilteredScripts(s, "boundaries") + FilteredScripts(s, "clarity") + FilteredScripts(s, "exit"))
         == multiset(s)
    ensures |FilteredScripts(s, "boundaries")| + |FilteredScripts(s, "clarity")| + |FilteredScripts(s, "exit")| == |s|
  {
    var b, c, e := FilteredScripts(s, "boundaries"), FilteredScripts(s, "clarity"), FilteredScripts(s, "exit");
    forall x
      ensures multiset(b + c + e)[x] == multiset(s)[x]
    {
      SplitCount(s, x);
    }
    assert multiset(b + c + e) == multiset(s);
    assert |multiset(b + c + e)| == |b + c + e|;
  }

  /** One script's count over the three category filters. */
  lemma SplitCount(s: seq<Script>, x: Script)
    requires forall y | y in s :: HasKnownCategory(y)
    ensures multiset(FilteredScripts(s, "boundaries") + FilteredScripts(s, "clarity") + FilteredScripts(s, "exit"))[x]
         == multiset(s)[x]
  {
    var b, c, e := FilteredScripts(s, "boundaries"), FilteredScripts(s, "clarity"), FilteredScripts(s, "exit");
    assert multiset(b + c + e)[x] == multiset(b)[x] + multiset(c)[x] + multiset(e)[x];
    if x in s {
      var g :| g in Categories && g.id == x.category;
      assert g == Categories[0] || g == Categories[1] || g == Categories[2];
    } else {
      assert multiset(s)[x] == 0;
    }
  }

  /** The three category filters split the catalogue: each of the 8 scripts appears under
      exactly one of them. */
  lemma FiltersPartition()
    ensures multiset(FilteredScripts(Scripts, "boundaries") + FilteredScripts(Scripts, "clarity")
                     + FilteredScripts(Scripts, "exit")) == multiset(Scripts)
    ensures |FilteredScripts(Scripts, "boundaries")| + |FilteredScripts(Scripts, "clarity")|
            + |FilteredScripts(Scripts, "exit")| == |Scripts|
  {
    ScriptCategoriesKnown();
    CategoryFiltersSplit(Scripts);
  }

  /** The text a card shows and copies: `customized || template`. */
  function DisplayText(s: Script): (text: string) {
    if IsTruthy(s.customized) then s.customized.value else s.template
  }

  /** The editor's text: `customTemplate || customized || template`. */
  function EditorText(draft: string, s: Script): (text: string) {
    if draft != "" then draft else DisplayText(s)
  }

  /** A card shows (and copies) its customised text when it has a non-empty one, and its template
      otherwise; it is empty only when both are. */
  lemma DisplayTextCases(s: Script)
    ensures IsTruthy(s.customized) ==> DisplayText(s) == s.customized.value
    ensures !IsTruthy(s.customized) ==> DisplayText(s) == s.template
    ensures DisplayText(s) == "" <==> !IsTruthy(s.customized) && s.template == ""
  {
  }

  /** The editor shows the draft when there is one and otherwise the card's own text; it is
      empty only if all three are. */
  lemma EditorTextCases(draft: string, s: Script)
    ensures draft != "" ==> EditorText(draft, s) == draft
    ensures draft == "" ==> EditorText(draft, s) == DisplayText(s)
    ensures EditorText(draft, s) == "" <==> draft == "" && !IsTruthy(s.customized) && s.template == ""
  {
  }

  /** No catalogue script is customised, so every card shows (and copies) its template. */
  lemma CatalogueShowsTemplates()
    ensures forall s | s in Scripts :: DisplayText(s) == s.template
  {
  }

  /** The description card's lookup: `categories.find(cat => cat.id === selectedCategory)`. */
  function CategoryOf(selected: string): (r: Option<ScriptCategory>)
    ensures r.Some? ==> r.value in Categories && r.value.id == selected
    ensures r.None? <==> forall k | 0 <= k < |Categories| :: Categories[k].id != selected
  {
    Find(Categories, (c: ScriptCategory) => c.id == selected)
  }

  class View {
    var selectedCategory: string
    var editingScript: Option<string>
    var customTemplate: string

    /** The selected filter is "all" or a category button. */
    ghost predicate Valid()
      reads this
    {
      selectedCategory == AllScripts || exists c | c in Categories :: c.id == selectedCategory
    }

    /** The page as first shown: all scripts, no editor, no draft. */
    constructor ()
      ensures Valid()
      ensures selectedCategory == AllScripts && editingScript == None && customTemplate == ""
    {
      selectedCategory, editingScript, customTemplate := AllScripts, None, "";
    }

    /** "All Scripts". */
    method ShowAll()
      modifies this`selectedCategory
      ensures Valid() && selectedCategory == AllScripts
    {
      selectedCategory := AllScripts;
    }

    /** The button of category `k`. */
    method SelectCategory(k: nat)
      requires k < |Categories|
      modifies this`selectedCategory
      ensures Valid() && selectedCategory == Categories[k].id
    {
      selectedCategory := Categories[k].id;
    }

    /** "Customize" on the card of `scriptId`: open its editor; the draft is kept as it is. */
    method StartEditing(scriptId: string)
      modifies this`editingScript
      ensures editingScript == Some(scriptId)
    {
      editingScript := Some(scriptId);
    }

    /** Typing in the editor. */
    method EditTemplate(text: string)
      modifies this`customTemplate
      ensures customTemplate == text
    {
      customTemplate := text;
    }

    /** "Save Changes": close the editor. The draft is neither stored nor cleared. */
    method SaveCustomization(scriptId: string)
      modifies this`editingScript
      ensures editingScript == None
    {
      editingScript := None;
    }

    /** The cards on show. The filter always comes from a button, so the "No scripts found"
        card never appears. */
    method VisibleScripts() returns (shown: seq<Script>)
      requires Valid()
      ensures shown == FilteredScripts(Scripts, selectedCategory) && shown != []
    {
      shown := FilteredScripts(Scripts, selectedCategory);
      CategoriesNonEmpty();
    }

    /** "Cancel": close the editor and drop the draft. */
    method CancelEditing()
      modifies this`editingScript, this`customTemplate
      ensures editingScript == None && customTemplate == ""
    {
      editingScript, customTemplate := None, "";
    }
  }

  /** A draft saved on one card opens in the editor of the next card customised: editing script 1,
      saving, then customising script 2 shows the first draft instead of script 2's template. */
  method DraftCarriesOver(draft: string) returns (shown: string)
    requires draft != ""
    ensures shown == draft
  {
    var v := new View();
    v.StartEditing(NeedSpace.id);
    v.EditTemplate(draft);
    v.SaveCustomization(NeedSpace.id);
    v.StartEditing(SayingNo.id);
    shown := EditorText(v.customTemplate, SayingNo);
  }

  /** After "Cancel" the next editor opens on the card's own text. */
  method CancelRestoresTemplate(draft: string, k: nat) returns (shown: string)
    requires k < |Scripts|
    ensures shown == Scripts[k].template
  {
    var v := new View();
    v.StartEditing(NeedSpace.id);
    v.EditTemplate(draft);
    v.CancelEditing();
    v.StartEditing(Scripts[k].id);
    shown := EditorText(v.customTemplate, Scripts[k]);
    CatalogueShowsTemplates();
  }
}
