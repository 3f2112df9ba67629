/**
 * The Blind Spot Mirror page: a guided session over one pattern category at a time.
 * The user picks a category, answers (or skips) its prompts one after the other, and every
 * saved answer becomes a discovery at the front of the discovery list. After the category's
 * last prompt the page returns to category selection.
 */
module BlindSpotMirror {
  import opened Js

  datatype PatternCategory = PatternCategory(id: string, title: string, description: string, prompts: seq<string>)

  datatype Discovery = Discovery(id: string, category: string, insight: string, date: string)

  /** The fixed catalogue: three categories of four prompts each. */
  const Categories: seq<PatternCategory> := [Communication, Intimacy, Emotional]

  const Communication := PatternCategory("communication", "Communication Patterns",
    "How you express yourself and connect with others", CommunicationPrompts)
  const Intimacy := PatternCategory("intimacy", "Intimacy Boundaries",
    "Your comfort zones in emotional and physical closeness", IntimacyPrompts)
  const Emotional := PatternCategory("emotional", "Emotional Patterns",
    "Your unique ways of feeling and processing emotions", EmotionalPrompts)

  const CommunicationPrompts: seq<string> := [
    "When do you find yourself explaining things more than necessary?",
    "What topics make you speak faster or slower than usual?",
    "How do you respond when someone doesn't understand you the first time?",
    "What patterns do you notice in how you start difficult conversations?"]
  const IntimacyPrompts: seq<string> := [
    "What makes you feel most emotionally safe with someone?",
    "When do you notice yourself pulling back from connection?",
    "How do you express affection when words feel too vulnerable?",
    "What signals tell you someone wants more or less closeness than you do?"]
  const EmotionalPrompts: seq<string> := [
    "What emotions do you feel most comfortable expressing?",
    "How does your body tell you when you're overwhelmed?",
    "What triggers make you feel like you're 'too much' for others?",
    "When do you find yourself minimizing your own feelings?"]

  /** The discovery the page starts with (the insight's first letter is written apart so that
      the verifier sees it without walking the whole literal). */
  const SeedDiscovery := Discovery("1", "Communication Patterns",
    "I" + " tend to over-explain when I'm feeling insecure about being understood", "2024-01-10")

  /** Where a session stands: the selected category id (none on the selection screen)
      and the index of the prompt on show. */
  datatype Position = Position(selected: Option<string>, index: nat)

  /** `getCurrentCategory`: the catalogue entry whose id is the selected one. */
  function CategoryOf(selected: Option<string>): (r: Option<PatternCategory>)
    ensures r.Some? ==> selected.Some? && r.value in Categories && r.value.id == selected.value
    ensures r.None? <==> selected.None? || forall k | 0 <= k < |Categories| :: Categories[k].id != selected.value
  {
    match selected
    case None => None
    case Some(id) => Find(Categories, (c: PatternCategory) => c.id == id)
  }

  /** Category ids are distinct, so selecting a category's id finds that very category. */
  lemma CategoryOfId(k: nat)
    requires k < |Categories|
    ensures CategoryOf(Some(Categories[k].id)) == Some(Categories[k])
  {
    FindUnique(Categories, (c: PatternCategory) => c.id == Categories[k].id, k);
  }

  /** `getCurrentPrompt`: the prompt at the current index of the current category, or "". */
  function PromptAt(p: Position): (r: string)
    ensures r != "" ==> CategoryOf(p.selected).Some? && r in CategoryOf(p.selected).value.prompts
  {
    match CategoryOf(p.selected)
    case None => ""
    case Some(c) => if p.index < |c.prompts| then c.prompts[p.index] else ""
  }

  /** The title recorded with a discovery: `category?.title || ""`. */
  function TitleOf(selected: Option<string>): (title: string)
    ensures CategoryOf(selected).Some? ==> title == CategoryOf(selected).value.title
    ensures CategoryOf(selected).None? ==> title == ""
  {
    match CategoryOf(selected)
    case None => ""
    case Some(c) => c.title
  }

  /** The session invariant: off-session the index is 0; in session the selected id names a
      catalogue category and the index is one of its prompts. */
  predicate ValidPosition(p: Position) {
    match CategoryOf(p.selected)
    case None => p.selected.None? && p.index == 0
    case Some(c) => p.index < |c.prompts|
  }

  /** In a valid session the prompt on show is a real prompt of the selected category. */
  lemma PromptInCategory(p: Position)
    requires ValidPosition(p) && p.selected.Some?
    ensures CategoryOf(p.selected).Some?
    ensures PromptAt(p) == CategoryOf(p.selected).value.prompts[p.index]
    ensures PromptAt(p) in CategoryOf(p.selected).value.prompts
  {
  }

  /** The move after a save or a skip: the next prompt of the category while there is one,
      otherwise back to category selection. */
  function Advance(p: Position): (r: Position)
    ensures ValidPosition(p) ==> ValidPosition(r)
    ensures (r.selected == p.selected && r.index == p.index + 1) || r == Position(None, 0)
    ensures r.selected.Some? <==>
      CategoryOf(p.selected).Some? && p.index + 1 < |CategoryOf(p.selected).value.prompts|
  {
    var c := CategoryOf(p.selected);
    if c.Some? && p.index < |c.value.prompts| - 1 then Position(p.selected, p.index + 1)
    else Position(None, 0)
  }

  /** `n` saves or skips in a row. */
  function AdvanceN(p: Position, n: nat): (q: Position) {
    if n == 0 then p else Advance(AdvanceN(p, n - 1))
  }

  /** Starting a category with `n` prompts at its first prompt, the first `n - 1` moves stay in
      the session on the next prompt and the `n`-th returns to category selection. */
  lemma {:induction false} SessionLength(k: nat, i: nat)
    requires k < |Categories| && i <= |Categories[k].prompts|
    ensures AdvanceN(Position(Some(Categories[k].id), 0), i)
         == if i < |Categories[k].prompts| then Position(Some(Categories[k].id), i) else Position(None, 0)
  {
    if i > 0 {
      SessionLength(k, i - 1);
      CategoryOfId(k);
    }
  }

  /** What every discovery in the list satisfies: its insight is a non-empty trimmed answer and
      it is filed under the title of a catalogue category. */
  predicate ValidDiscovery(d: Discovery) {
    d.insight != "" && IsTrimmed(d.insight) && exists c | c in Categories :: c.title == d.category
  }

  /** The seed discovery already satisfies what saved discoveries satisfy. */
  lemma SeedIsValid()
    ensures ValidDiscovery(SeedDiscovery)
  {
    SeedIsTrimmed();
    assert Communication in Categories;
  }

  lemma SeedIsTrimmed()
    ensures IsTrimmed(SeedDiscovery.insight)
  {
    var s := SeedDiscovery.insight;
    assert s[0] == 'I' && s[|s| - 1] == 'd';
  }

  /** A saved answer makes a valid discovery. */
  lemma SavedIsValid(selected: Option<string>, response: string, id: string, date: string)
    requires CategoryOf(selected).Some? && Trim(response) != ""
    ensures ValidDiscovery(Discovery(id, TitleOf(selected), Trim(response), date))
  {
    TrimIdempotent(response);
    TrimKeeps(Trim(response));
    assert CategoryOf(selected).value in Categories;
  }

  lemma ValidAfterPrepend(d: Discovery, ds: seq<Discovery>)
    requires ValidDiscovery(d) && forall e | e in ds :: ValidDiscovery(e)
    ensures forall e | e in [d] + ds :: ValidDiscovery(e)
  {
  }

  class Session {
    var selectedCategory: Option<string>
    var currentPromptIndex: nat
    var response: string
    var discoveries: seq<Discovery>

    function Pos(): Position
      reads this
    {
      Position(selectedCategory, currentPromptIndex)
    }

    ghost predicate Valid()
      reads this
    {
      ValidPosition(Pos()) && forall d | d in discoveries :: ValidDiscovery(d)
    }

    /** The page as first shown: category selection, an empty answer and one seed discovery. */
    constructor ()
      ensures Valid()
      ensures selectedCategory == None && currentPromptIndex == 0 && response == ""
      ensures discoveries == [SeedDiscovery]
    {
      selectedCategory, currentPromptIndex, response := None, 0, "";
      discoveries := [SeedDiscovery];
      SeedIsValid();
    }

    /** Clicking the card of catalogue category `k`; the cards are shown only off-session. */
    method SelectCategory(k: nat)
      requires Valid() && selectedCategory.None? && k < |Categories|
      modifies this
      ensures Valid()
      ensures selectedCategory == Some(Categories[k].id) && currentPromptIndex == 0
      ensures response == old(response) && discoveries == old(discoveries)
    {
      selectedCategory := Some(Categories[k].id);
      CategoryOfId(k);
    }

    /** Typing in the answer box. */
    method EditResponse(text: string)
      modifies this`response
      ensures response == text
    {
      response := text;
    }

    /** "Save & Continue": with a non-blank answer and a selected category, file the trimmed
        answer under the category's title at the front of the list, clear the answer and move
        on; otherwise nothing changes. `id` and `date` stand for the clock readings. */
    method SaveDiscovery(id: string, date: string)
      requires Valid()
      modifies this
      ensures Valid()
      ensures Trim(old(response)) != "" && IsTruthy(old(selectedCategory)) ==>
        && discoveries == [Discovery(id, TitleOf(old(selectedCategory)), Trim(old(response)), date)] + old(discoveries)
        && response == ""
        && Pos() == Advance(old(Pos()))
      ensures !(Trim(old(response)) != "" && IsTruthy(old(selectedCategory))) ==>
        && discoveries == old(discoveries) && response == old(response)
        && selectedCategory == old(selectedCategory) && currentPromptIndex == old(currentPromptIndex)
    {
      var insight := Trim(response);
      if insight != "" && IsTruthy(selectedCategory) {
        var discovery := Discovery(id, TitleOf(selectedCategory), insight, date);
        var next := Advance(Pos());
        SavedIsValid(selectedCategory, response, id, date);
        ValidAfterPrepend(discovery, discoveries);
        discoveries := [discovery] + discoveries;
        response := "";
        selectedCategory, currentPromptIndex := next.selected, next.index;
      }
    }

    /** "Skip This One": move on without saving, and clear the answer. */
    method SkipPrompt()
      requires Valid()
      modifies this
      ensures Valid()
      ensures Pos() == Advance(old(Pos()))
      ensures response == "" && discoveries == old(discoveries)
    {
      var next := Advance(Pos());
      selectedCategory, currentPromptIndex := next.selected, next.index;
      response := "";
    }

    /** "Exit Session": back to category selection with an empty answer; discoveries stay. */
    method ExitSession()
      requires Valid()
      modifies this
      ensures Valid()
      ensures selectedCategory == None && currentPromptIndex == 0 && response == ""
      ensures discoveries == old(discoveries)
    {
      selectedCategory, currentPromptIndex, response := None, 0, "";
    }

    /** The "Your Recent Discoveries" card: the newest three discoveries at most. */
    method RecentDiscoveries() returns (shown: seq<Discovery>)
      ensures |shown| <= 3 && shown <= discoveries
      ensures |shown| == 3 || shown == discoveries
    {
      shown := Take(discoveries, 3);
    }
  }
}
