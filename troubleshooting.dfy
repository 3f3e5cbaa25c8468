/** The self-help troubleshooting page: the static guide list (only the fields the page
    computes with), the case-insensitive search and category filter, the related-guide
    lookup, the stats cards and the page's own selection state. */
module Troubleshooting {
  import opened Types
  import opened Text
  import Seqs

  // ---------------------------------------------------------------- the guides

  /** A guide as far as the page computes with it; the steps, icon and estimated time
      are only displayed. */
  datatype Guide = Guide(
    id: string,
    title: string,
    category: string,
    description: string,
    symptoms: seq<string>,
    videoUrl: Option<string>,
    relatedGuides: Option<seq<string>>)

  /** The words of a guide that the search reads: its title, description and
      symptoms. */
  datatype GuideText = GuideText(title: string, description: string, symptoms: seq<string>)

  /** The words of the six guides, one per guide. */
  datatype Words = Words(
    computerWontStart: GuideText,
    noInternetConnection: GuideText,
    printerNotWorking: GuideText,
    noSoundAudio: GuideText,
    mouseNotWorking: GuideText,
    keyboardNotWorking: GuideText)

  function ComputerWontStart(t: GuideText): Guide {
    Guide("computer-wont-start", t.title, "Hardware", t.description, t.symptoms,
      Some("https://example.com/computer-wont-start-video"),
      Some(["monitor-no-display", "computer-slow-performance"]))
  }

  function NoInternetConnection(t: GuideText): Guide {
    Guide("no-internet-connection", t.title, "Network", t.description, t.symptoms,
      None,
      Some(["wifi-slow-speed", "vpn-connection-issues"]))
  }

  function PrinterNotWorking(t: GuideText): Guide {
    Guide("printer-not-working", t.title, "Peripherals", t.description, t.symptoms,
      None,
      Some(["scanner-not-working", "network-printer-setup"]))
  }

  function NoSoundAudio(t: GuideText): Guide {
    Guide("no-sound-audio", t.title, "Audio", t.description, t.symptoms,
      None,
      Some(["microphone-not-working", "bluetooth-audio-issues"]))
  }

  function MouseNotWorking(t: GuideText): Guide {
    Guide("mouse-not-working", t.title, "Peripherals", t.description, t.symptoms,
      None,
      Some(["keyboard-not-working", "touchpad-issues"]))
  }

  function KeyboardNotWorking(t: GuideText): Guide {
    Guide("keyboard-not-working", t.title, "Peripherals", t.description, t.symptoms,
      None,
      Some(["mouse-not-working", "special-keys-not-working"]))
  }

  /** `troubleshootingGuides` in page order, given the words of each guide. */
  function GuideList(w: Words): (gs: seq<Guide>)
    ensures |gs| == 6
  {
    [ComputerWontStart(w.computerWontStart), NoInternetConnection(w.noInternetConnection),
     PrinterNotWorking(w.printerNotWorking), NoSoundAudio(w.noSoundAudio),
     MouseNotWorking(w.mouseNotWorking), KeyboardNotWorking(w.keyboardNotWorking)]
  }

  /** The words of the six guides, in page order. */
  function PageWords(): Words {
    Words(
      GuideText("Computer Won't Start",
       "Step-by-step guide to diagnose and fix a computer that won't turn on.",
       ["No power lights or sounds when pressing power button",
        "Computer starts but screen remains black",
        "Fans spin but no display output"]),
      GuideText("No Internet Connection",
       "Troubleshoot and resolve internet connectivity issues.",
       ["No internet access despite being connected to WiFi",
        "Cannot access websites or online services",
        "WiFi shows connected but pages won't load"]),
      GuideText("Printer Not Working",
       "Resolve common printer issues and get your printer working again.",
       ["Printer not responding to print commands",
        "Print jobs stuck in queue",
        "Poor print quality or blank pages"]),
      GuideText("No Sound or Audio Issues",
       "Fix audio problems and restore sound to your computer.",
       ["No sound from speakers or headphones",
        "Audio is distorted or crackling",
        "Microphone not working"]),
      GuideText("Mouse Not Working",
       "Troubleshoot mouse connectivity and functionality issues.",
       ["Mouse cursor not moving",
        "Mouse clicks not registering",
        "Erratic mouse movement"]),
      GuideText("Keyboard Not Working",
       "Fix keyboard connectivity and typing issues.",
       ["Keys not responding when pressed",
        "Some keys typing wrong characters",
        "Keyboard not detected by computer"]))
  }

  /** The page's guide list. The lemmas below are stated over `GuideList(w)` for any
      words `w`, and so hold for this list in particular. */
  function Guides(): seq<Guide> {
    GuideList(PageWords())
  }

  /** `categories`: the filter's choices, `'All'` first. */
  function Categories(): seq<string> {
    ["All", "Hardware", "Network", "Peripherals", "Audio", "Software"]
  }

  /** The guides carry six distinct ids, and every guide's category is offered by the
      category filter. */
  lemma GuidesWellFormed(w: Words)
    ensures forall i, j :: 0 <= i < j < |GuideList(w)| ==> GuideList(w)[i].id != GuideList(w)[j].id
    ensures forall g :: g in GuideList(w) ==> g.category in Categories()[1..]
  {
  }

  // ---------------------------------------------------------------- search and category

  /** `matchesSearch` against an already lower-cased search term. */
  predicate MatchesSearch(g: Guide, needle: string) {
    Contains(ToLower(g.title), needle) ||
    Contains(ToLower(g.description), needle) ||
    exists i :: 0 <= i < |g.symptoms| && Contains(ToLower(g.symptoms[i]), needle)
  }

  /** `matchesCategory` */
  predicate MatchesCategory(g: Guide, category: string) {
    category == "All" || g.category == category
  }

  function GuideFilter(needle: string, category: string): Guide -> bool {
    (g: Guide) => MatchesSearch(g, needle) && MatchesCategory(g, category)
  }

  /** `troubleshootingGuides.filter(...)` over a guide list `gs`: a guide is kept
      exactly when the lower-cased search term occurs in its lower-cased title,
      description or one of its symptoms, and the category is `'All'` or the guide's
      own. The page filters `Guides()`. */
  function FilteredGuides(gs: seq<Guide>, searchTerm: string, category: string): (r: seq<Guide>)
    ensures |r| <= |gs|
    ensures forall g :: g in r <==>
      g in gs && MatchesSearch(g, ToLower(searchTerm)) && MatchesCategory(g, category)
  {
    Seqs.Filter(gs, GuideFilter(ToLower(searchTerm), category))
  }

  /** With nothing typed and `'All'` selected, every guide is listed, in list order. */
  lemma EmptySearchListsAll(gs: seq<Guide>)
    ensures FilteredGuides(gs, "", "All") == gs
  {
    forall i | 0 <= i < |gs| ensures GuideFilter("", "All")(gs[i]) {
      assert Contains(ToLower(gs[i].title), "");
    }
    Seqs.FilterKeepsAll(gs, GuideFilter("", "All"));
  }

  /** A category that no guide has lists nothing, whatever is typed. */
  lemma UnusedCategoryListsNothing(gs: seq<Guide>, searchTerm: string, category: string)
    requires category != "All"
    requires forall g :: g in gs ==> g.category != category
    ensures FilteredGuides(gs, searchTerm, category) == []
  {
    forall i | 0 <= i < |gs| ensures !GuideFilter(ToLower(searchTerm), category)(gs[i]) {
      assert gs[i] in gs;
    }
    Seqs.FilterKeepsNone(gs, GuideFilter(ToLower(searchTerm), category));
  }

  /** `'Software'` is offered as a category, but no guide of the page has it. */
  lemma SoftwareListsNothing(w: Words, searchTerm: string)
    ensures "Software" in Categories()
    ensures FilteredGuides(GuideList(w), searchTerm, "Software") == []
  {
    UnusedCategoryListsNothing(GuideList(w), searchTerm, "Software");
  }

  lemma LowerUpperChar(c: char)
    ensures LowerChar(LowerChar(c)) == LowerChar(c)
    ensures LowerChar(UpperChar(c)) == LowerChar(c)
  {
  }

  /** Lower-casing forgets the case the text was typed in. */
  lemma ToLowerForgetsCase(s: string)
    ensures ToLower(ToLower(s)) == ToLower(s)
    ensures ToLower(ToUpper(s)) == ToLower(s)
  {
    forall k | 0 <= k < |s| ensures ToLower(ToLower(s))[k] == ToLower(s)[k] && ToLower(ToUpper(s))[k] == ToLower(s)[k] {
      LowerUpperChar(s[k]);
    }
  }

  /** The search ignores the case of what is typed. */
  lemma SearchIgnoresCase(gs: seq<Guide>, searchTerm: string, category: string)
    ensures FilteredGuides(gs, ToUpper(searchTerm), category) == FilteredGuides(gs, searchTerm, category)
    ensures FilteredGuides(gs, ToLower(searchTerm), category) == FilteredGuides(gs, searchTerm, category)
  {
    ToLowerForgetsCase(searchTerm);
  }

  /** Choosing a category other than `'All'` only narrows the list. */
  lemma {:induction false} CategoryNarrows(gs: seq<Guide>, searchTerm: string, category: string)
    ensures |FilteredGuides(gs, searchTerm, category)| <= |FilteredGuides(gs, searchTerm, "All")|
  {
    if gs != [] {
      CategoryNarrows(gs[1..], searchTerm, category);
    }
  }

  // ---------------------------------------------------------------- related guides

  /** `gs.find(g => g.id === id)`: the first guide with that id, if any. */
  function Find(gs: seq<Guide>, id: string): (r: Option<Guide>)
    ensures r.None? <==> forall g :: g in gs ==> g.id != id
    ensures r.Some? ==> r.value in gs && r.value.id == id
  {
    if gs == [] then None
    else if gs[0].id == id then Some(gs[0])
    else Find(gs[1..], id)
  }

  /** `find` returns the first guide with the id. */
  lemma {:induction false} FindFirst(gs: seq<Guide>, i: int, id: string)
    requires 0 <= i < |gs| && gs[i].id == id
    requires forall j :: 0 <= j < i ==> gs[j].id != id
    ensures Find(gs, id) == Some(gs[i])
  {
    if i > 0 {
      FindFirst(gs[1..], i - 1, id);
    }
  }

  /** `relatedGuides.map(...)` with the missing ones rendered as `null`: the guides of
      `gs` the ids name, in the order of the ids, skipping every id no guide has. */
  function Resolve(gs: seq<Guide>, ids: seq<string>): (r: seq<Guide>)
    ensures |r| <= |ids|
    ensures forall g :: g in r ==> g in gs && g.id in ids
  {
    if ids == [] then []
    else
      match Find(gs, ids[0])
      case None => Resolve(gs, ids[1..])
      case Some(g) => [g] + Resolve(gs, ids[1..])
  }

  /** No id that names a guide is skipped. */
  lemma {:induction false} ResolveComplete(gs: seq<Guide>, ids: seq<string>, k: int)
    requires 0 <= k < |ids| && Find(gs, ids[k]).Some?
    ensures Find(gs, ids[k]).value in Resolve(gs, ids)
  {
    if k > 0 {
      assert ids[1..][k - 1] == ids[k];
      ResolveComplete(gs, ids[1..], k - 1);
    }
  }

  /** The "Related Guides" section is drawn when the guide lists at least one id. */
  predicate ShowsRelatedSection(g: Guide) {
    g.relatedGuides.Some? && |g.relatedGuides.value| > 0
  }

  /** The buttons of the "Related Guides" section of guide `g`, looked up in `gs`. */
  function RelatedGuides(gs: seq<Guide>, g: Guide): (r: seq<Guide>)
    ensures !ShowsRelatedSection(g) ==> r == []
    ensures forall x :: x in r ==> x in gs && ShowsRelatedSection(g) && x.id in g.relatedGuides.value
  {
    if ShowsRelatedSection(g) then Resolve(gs, g.relatedGuides.value) else []
  }

  /** Two related ids of which only the first names a guide show that guide alone. */
  lemma FirstOfTwoResolves(gs: seq<Guide>, a: string, b: string)
    requires Find(gs, a).Some? && Find(gs, b).None?
    ensures Resolve(gs, [a, b]) == [Find(gs, a).value]
  {
    assert [a, b][1..] == [b];
  }

  /** Two related ids that name no guide show nothing. */
  lemma NeitherResolves(gs: seq<Guide>, a: string, b: string)
    requires Find(gs, a).None? && Find(gs, b).None?
    ensures Resolve(gs, [a, b]) == []
  {
    assert [a, b][1..] == [b];
  }

  /** A guide relating two ids of which only the first names a guide in `gs` shows
      that guide alone. */
  lemma RelatedOfPair(gs: seq<Guide>, g: Guide, a: string, b: string)
    requires g.relatedGuides == Some([a, b])
    requires Find(gs, a).Some? && Find(gs, b).None?
    ensures RelatedGuides(gs, g) == [Find(gs, a).value]
  {
    FirstOfTwoResolves(gs, a, b);
  }

  lemma FindKeyboard(w: Words)
    ensures Find(GuideList(w), "keyboard-not-working") == Some(KeyboardNotWorking(w.keyboardNotWorking))
  {
    FindFirst(GuideList(w), 5, "keyboard-not-working");
  }

  lemma FindMouse(w: Words)
    ensures Find(GuideList(w), "mouse-not-working") == Some(MouseNotWorking(w.mouseNotWorking))
  {
    FindFirst(GuideList(w), 4, "mouse-not-working");
  }

  /** An id as long as no guide's id names no guide. */
  lemma {:induction false} AbsentByLength(gs: seq<Guide>, id: string)
    requires forall j :: 0 <= j < |gs| ==> |gs[j].id| != |id|
    ensures Find(gs, id) == None
  {
    if gs != [] {
      AbsentByLength(gs[1..], id);
    }
  }

  /** The guides' ids are 19, 22, 19, 14, 17 and 20 characters long: an id of any
      other length names no guide. */
  lemma AbsentFromGuides(w: Words, id: string)
    requires |id| != 14 && |id| != 17 && |id| != 19 && |id| != 20 && |id| != 22
    ensures Find(GuideList(w), id) == None
  {
    AbsentFromSix(ComputerWontStart(w.computerWontStart), NoInternetConnection(w.noInternetConnection),
                  PrinterNotWorking(w.printerNotWorking), NoSoundAudio(w.noSoundAudio),
                  MouseNotWorking(w.mouseNotWorking), KeyboardNotWorking(w.keyboardNotWorking), id);
  }

  /** In a list of six guides, an id as long as none of theirs names no guide. */
  lemma AbsentFromSix(g0: Guide, g1: Guide, g2: Guide, g3: Guide, g4: Guide, g5: Guide, id: string)
    requires |g0.id| != |id| && |g1.id| != |id| && |g2.id| != |id|
    requires |g3.id| != |id| && |g4.id| != |id| && |g5.id| != |id|
    ensures Find([g0, g1, g2, g3, g4, g5], id) == None
  {
    AbsentByLength([g0, g1, g2, g3, g4, g5], id);
  }

  /** The mouse guide's related list shows the keyboard guide only: its second id,
      `touchpad-issues`, names no guide. */
  lemma MouseRelatesToKeyboard(w: Words)
    ensures RelatedGuides(GuideList(w), MouseNotWorking(w.mouseNotWorking)) == [KeyboardNotWorking(w.keyboardNotWorking)]
  {
    FindKeyboard(w);
    AbsentFromGuides(w, "touchpad-issues");
    RelatedOfPair(GuideList(w), MouseNotWorking(w.mouseNotWorking), "keyboard-not-working", "touchpad-issues");
  }

  /** The keyboard guide's related list shows the mouse guide only: its second id,
      `special-keys-not-working`, names no guide. */
  lemma KeyboardRelatesToMouse(w: Words)
    ensures RelatedGuides(GuideList(w), KeyboardNotWorking(w.keyboardNotWorking)) == [MouseNotWorking(w.mouseNotWorking)]
  {
    FindMouse(w);
    AbsentFromGuides(w, "special-keys-not-working");
    RelatedOfPair(GuideList(w), KeyboardNotWorking(w.keyboardNotWorking), "mouse-not-working", "special-keys-not-working");
  }

  /** The first guide draws the "Related Guides" section with no button in it: neither
      id it names belongs to a guide. */
  lemma DanglingRelatedGuides(w: Words)
    ensures ShowsRelatedSection(ComputerWontStart(w.computerWontStart))
    ensures RelatedGuides(GuideList(w), ComputerWontStart(w.computerWontStart)) == []
  {
    AbsentFromGuides(w, "monitor-no-display");
    AbsentFromGuides(w, "computer-slow-performance");
    NeitherResolves(GuideList(w), "monitor-no-display", "computer-slow-performance");
  }

  // ---------------------------------------------------------------- stats

  /** `g => g.videoUrl` as a filter test: set and not empty. */
  function HasVideo(): Guide -> bool {
    (g: Guide) => g.videoUrl.Some? && g.videoUrl.value != ""
  }

  /** The "With Videos" card over a guide list. */
  function VideoCount(gs: seq<Guide>): (n: nat)
    ensures n <= |gs|
  {
    |Seqs.Filter(gs, HasVideo())|
  }

  /** The "Categories" card, `categories.length - 1`: the number of distinct
      categories offered besides `'All'`, which is five. */
  function CategoryCount(): (n: nat)
    ensures n == |set c | c in Categories() && c != "All"|
    ensures n == 5
  {
    assert (set c | c in Categories() && c != "All") == {"Hardware", "Network", "Peripherals", "Audio", "Software"};
    |Categories()| - 1
  }

  /** A list whose first guide alone has a video counts one video. */
  lemma {:induction false} OnlyFirstHasVideo(gs: seq<Guide>)
    requires gs != [] && HasVideo()(gs[0])
    requires forall j :: 1 <= j < |gs| ==> !HasVideo()(gs[j])
    ensures Seqs.Filter(gs, HasVideo()) == [gs[0]]
  {
    Seqs.FilterKeepsNone(gs[1..], HasVideo());
  }

  /** The cards show six guides, five categories and one guide with a video, the
      first. */
  lemma StatsOfTheList(w: Words)
    ensures |GuideList(w)| == 6 && CategoryCount() == 5
    ensures Seqs.Filter(GuideList(w), HasVideo()) == [ComputerWontStart(w.computerWontStart)]
    ensures VideoCount(GuideList(w)) == 1
  {
    OnlyFirstHasVideo(GuideList(w));
  }

  // ---------------------------------------------------------------- page state

  /** `expandedGuide` after a "Quick Preview" click on guide `id`: the open preview is
      closed when it is that guide's, otherwise that guide's preview replaces it. */
  function Toggled(expanded: Option<string>, id: string): (r: Option<string>)
    ensures r.Some? ==> r.value == id
    ensures r.None? <==> expanded == Some(id)
  {
    if expanded == Some(id) then None else Some(id)
  }

  /** Two clicks on the same guide leave no preview open; a click on a closed guide
      opens it whatever was open before. */
  lemma ToggleTwice(expanded: Option<string>, id: string)
    ensures Toggled(Toggled(expanded, id), id) == (if expanded == Some(id) then Some(id) else None)
    ensures expanded != Some(id) ==> Toggled(expanded, id) == Some(id)
  {
  }

  /** The page's own state. */
  class TroubleshootingView {
    var searchTerm: string
    var selectedCategory: string
    var expandedGuide: Option<string>
    var selectedGuide: Option<Guide>

    constructor ()
      ensures searchTerm == "" && selectedCategory == "All"
      ensures expandedGuide == None && selectedGuide == None
    {
      searchTerm, selectedCategory := "", "All";
      expandedGuide, selectedGuide := None, None;
    }

    /** Typing in the search box. */
    method Search(text: string)
      modifies this
      ensures searchTerm == text && selectedCategory == old(selectedCategory)
      ensures expandedGuide == old(expandedGuide) && selectedGuide == old(selectedGuide)
    {
      searchTerm := text;
    }

    /** Choosing a category. */
    method ChooseCategory(category: string)
      modifies this
      ensures selectedCategory == category && searchTerm == old(searchTerm)
      ensures expandedGuide == old(expandedGuide) && selectedGuide == old(selectedGuide)
    {
      selectedCategory := category;
    }

    /** The "Quick Preview" button of guide `id`. */
    method TogglePreview(id: string)
      modifies this
      ensures expandedGuide == Toggled(old(expandedGuide), id)
      ensures searchTerm == old(searchTerm) && selectedCategory == old(selectedCategory)
      ensures selectedGuide == old(selectedGuide)
    {
      expandedGuide := if expandedGuide == Some(id) then None else Some(id);
    }

    /** "View Guide", or a related-guide button: opens that guide. */
    method ViewGuide(g: Guide)
      modifies this
      ensures selectedGuide == Some(g) && expandedGuide == old(expandedGuide)
      ensures searchTerm == old(searchTerm) && selectedCategory == old(selectedCategory)
    {
      selectedGuide := Some(g);
    }

    /** "Back to Troubleshooting": returns to the list with its filter as it was. */
    method Back()
      modifies this
      ensures selectedGuide == None && expandedGuide == old(expandedGuide)
      ensures searchTerm == old(searchTerm) && selectedCategory == old(selectedCategory)
    {
      selectedGuide := None;
    }
  }
}
