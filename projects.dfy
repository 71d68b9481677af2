/**
 * The projects page: the fetched project list, the per-project image-loading table
 * that drives the thumbnail skeletons, and the tech-stack chip colours.
 */
module Projects {
  import opened Wrappers

  /** A published project as the page uses it: its key and its (possibly null) tech stack. */
  datatype Project = Project(id: int, techStack: Option<seq<string>>)

  // ---------------------------------------------------------------------------
  // Image loading table

  /** The table maps project ids to "thumbnail still loading"; a missing id reads as undefined, which is falsy. */
  type LoadingTable = map<int, bool>

  function Loading(table: LoadingTable, id: int): bool {
    id in table && table[id]
  }

  /** The ids of a project list. */
  function Ids(projects: seq<Project>): set<int> {
    set i | 0 <= i < |projects| :: projects[i].id
  }

  /** The table built after a fetch: every project's id marked as loading, in list order. */
  function AllLoading(projects: seq<Project>): LoadingTable {
    if projects == [] then map[]
    else AllLoading(projects[..|projects| - 1])[projects[|projects| - 1].id := true]
  }

  /** The fetched table has exactly one entry per project id, and every entry is true. */
  lemma {:induction false} AllLoadingExact(projects: seq<Project>)
    ensures AllLoading(projects).Keys == Ids(projects)
    ensures forall id :: id in AllLoading(projects) ==> AllLoading(projects)[id]
  {
    if projects != [] {
      var init := projects[..|projects| - 1];
      AllLoadingExact(init);
      assert Ids(projects) == Ids(init) + {projects[|projects| - 1].id} by {
        forall id | id in Ids(projects)
          ensures id in Ids(init) + {projects[|projects| - 1].id}
        {
          var i :| 0 <= i < |projects| && projects[i].id == id;
          if i < |projects| - 1 {
            assert init[i].id == id;
          }
        }
        forall id | id in Ids(init)
          ensures id in Ids(projects)
        {
          var i :| 0 <= i < |init| && init[i].id == id;
          assert projects[i].id == id;
        }
      }
    }
  }

  /** Right after a fetch every fetched project's thumbnail is loading. */
  lemma FetchedImagesLoading(projects: seq<Project>, i: nat)
    requires i < |projects|
    ensures Loading(AllLoading(projects), projects[i].id)
  {
    AllLoadingExact(projects);
    assert projects[i].id in Ids(projects);
  }

  /** handleImageLoad: the loaded id is marked false; every other entry is kept. */
  function MarkLoaded(table: LoadingTable, id: int): (next: LoadingTable)
    ensures id in next && !next[id] && !Loading(next, id)
    ensures next.Keys == table.Keys + {id}
    ensures forall k :: k in table && k != id ==> next[k] == table[k]
  {
    table[id := false]
  }

  /** Marking an image loaded twice is marking it once. */
  lemma MarkLoadedIdempotent(table: LoadingTable, id: int)
    ensures MarkLoaded(MarkLoaded(table, id), id) == MarkLoaded(table, id)
  {
  }

  /** Loading events for two images can arrive in either order. */
  lemma MarkLoadedCommutes(table: LoadingTable, a: int, b: int)
    ensures MarkLoaded(MarkLoaded(table, a), b) == MarkLoaded(MarkLoaded(table, b), a)
  {
  }

  /** Marking one image loaded leaves the loading state of every other project as it was. */
  lemma MarkLoadedKeepsOthers(table: LoadingTable, id: int, other: int)
    requires other != id
    ensures Loading(MarkLoaded(table, id), other) == Loading(table, other)
  {
  }

  /** The skeleton is drawn over a thumbnail exactly while it is loading. */
  predicate SkeletonShown(table: LoadingTable, id: int) {
    Loading(table, id)
  }

  /** The thumbnail's opacity: hidden while loading, fully shown otherwise. */
  function ImageOpacity(table: LoadingTable, id: int): (opacity: int)
    ensures opacity == 0 || opacity == 1
    ensures opacity == 0 <==> SkeletonShown(table, id)
  {
    if Loading(table, id) then 0 else 1
  }

  /** What the page renders. */
  datatype PageView = Spinner | Page(cards: seq<Project>, emptyMessage: bool)

  /** A spinner while loading; otherwise one card per project, and the empty-state message when there are none. */
  function ViewPage(loading: bool, projects: seq<Project>): (v: PageView)
    ensures v.Spinner? <==> loading
    ensures v.Page? ==> v.cards == projects && (v.emptyMessage <==> projects == [])
  {
    if loading then Spinner else Page(projects, |projects| == 0)
  }

  // ---------------------------------------------------------------------------
  // Tech chips

  const TechColors: map<string, string> := map[
    "React" := "#61DAFB",
    "Vite" := "#646CFF",
    "JavaScript" := "#F7DF1E",
    "HTML5" := "#E34F26",
    "CSS3" := "#1572B6",
    "Supabase" := "#3ECF8E",
    "PostgreSQL" := "#336791",
    "MUI" := "#007FFF",
    "Node.js" := "#339933",
    "TypeScript" := "#3178C6"]

  const SecondaryText: string := "var(--color-text-secondary)"

  /** The colour of a tech, if it has one (every mapped colour is a non-empty string, so `||` keeps it). */
  function TechColor(tech: string): (c: Option<string>)
    ensures c.Some? <==> tech in TechColors
    ensures c.Some? ==> c.value == TechColors[tech]
  {
    if tech in TechColors then Some(TechColors[tech]) else None
  }

  /** A chip's colours; the border is drawn as `1px solid <borderColor>`. */
  datatype ChipStyle = ChipStyle(backgroundColor: string, color: string, borderColor: string, iconColor: string)

  function BorderDeclaration(style: ChipStyle): string {
    "1px solid " + style.borderColor
  }

  /** The chip colours for a fallback base colour: the base with alpha 0x20 behind, 0x40 on the border. */
  function ChipStyleWith(fallback: string, tech: string): ChipStyle {
    var base := TechColor(tech).GetOr(fallback);
    ChipStyle(
      backgroundColor := base + "20",
      color := TechColor(tech).GetOr(SecondaryText),
      borderColor := base + "40",
      iconColor := TechColor(tech).GetOr(SecondaryText))
  }

  /** The chip colours as the page writes them, with the short fallback `#666`. */
  function TechChipStyle(tech: string): ChipStyle {
    ChipStyleWith("#666", tech)
  }

  /** The chip colours with the fallback written out in six digits, so the appended alpha makes a valid colour. */
  function CorrectedTechChipStyle(tech: string): ChipStyle {
    ChipStyleWith("#666666", tech)
  }

  predicate IsHexDigit(c: char) {
    ('0' <= c <= '9') || ('a' <= c <= 'f') || ('A' <= c <= 'F')
  }

  /** A CSS hex colour: `#` followed by 3, 4, 6 or 8 hex digits. */
  predicate HexColor(s: string) {
    && (|s| == 4 || |s| == 5 || |s| == 7 || |s| == 9)
    && s[0] == '#'
    && forall i :: 1 <= i < |s| ==> IsHexDigit(s[i])
  }

  /** A six-digit colour `#RRGGBB`, the form every mapped tech colour has. */
  predicate SixDigitColor(s: string) {
    && |s| == 7 && s[0] == '#'
    && IsHexDigit(s[1]) && IsHexDigit(s[2]) && IsHexDigit(s[3])
    && IsHexDigit(s[4]) && IsHexDigit(s[5]) && IsHexDigit(s[6])
  }

  lemma TechColorsSixDigits(tech: string)
    requires tech in TechColors
    ensures SixDigitColor(TechColors[tech])
  {
    if tech == "React" {
    } else if tech == "Vite" {
    } else if tech == "JavaScript" {
    } else if tech == "HTML5" {
    } else if tech == "CSS3" {
    } else if tech == "Supabase" {
    } else if tech == "PostgreSQL" {
    } else if tech == "MUI" {
    } else if tech == "Node.js" {
    } else {
      assert tech == "TypeScript";
    }
  }

  /** Two hex digits appended to a six-digit colour give an eight-digit colour with alpha. */
  lemma AlphaSuffixValid(base: string, alpha: string)
    requires SixDigitColor(base)
    requires |alpha| == 2 && IsHexDigit(alpha[0]) && IsHexDigit(alpha[1])
    ensures HexColor(base + alpha)
  {
    var s := base + alpha;
    assert s[1] == base[1] && s[2] == base[2] && s[3] == base[3];
    assert s[4] == base[4] && s[5] == base[5] && s[6] == base[6];
    forall i | 1 <= i < |s|
      ensures IsHexDigit(s[i])
    {
      if i < 7 {
        assert s[i] == base[i];
      } else {
        assert s[i] == alpha[i - 7];
      }
    }
  }

  /** A mapped tech is drawn in its own colour, with valid tinted background and border colours. */
  lemma KnownTechChip(tech: string)
    requires tech in TechColors
    ensures TechChipStyle(tech).color == TechColors[tech]
    ensures TechChipStyle(tech).iconColor == TechColors[tech]
    ensures TechChipStyle(tech).backgroundColor == TechColors[tech] + "20"
    ensures TechChipStyle(tech).borderColor == TechColors[tech] + "40"
    ensures HexColor(TechChipStyle(tech).backgroundColor)
    ensures HexColor(TechChipStyle(tech).borderColor)
  {
    TechColorsSixDigits(tech);
    AlphaSuffixValid(TechColors[tech], "20");
    AlphaSuffixValid(TechColors[tech], "40");
  }

  /** An unmapped tech gets the secondary text colour for text and icon and `#666` plus alpha elsewhere. */
  lemma UnknownTechChip(tech: string)
    requires tech !in TechColors
    ensures TechChipStyle(tech).color == SecondaryText && TechChipStyle(tech).iconColor == SecondaryText
    ensures TechChipStyle(tech).backgroundColor == "#66620"
    ensures TechChipStyle(tech).borderColor == "#66640"
    ensures BorderDeclaration(TechChipStyle(tech)) == "1px solid #66640"
  {
  }

  /** As written, an unmapped tech's background and border colours have five hex digits: not a CSS colour. */
  lemma FallbackChipColorsInvalid(tech: string)
    requires tech !in TechColors
    ensures !HexColor(TechChipStyle(tech).backgroundColor)
    ensures !HexColor(TechChipStyle(tech).borderColor)
  {
    UnknownTechChip(tech);
  }

  /** With the corrected fallback every chip's background and border are valid colours. */
  lemma CorrectedChipColorsValid(tech: string)
    ensures HexColor(CorrectedTechChipStyle(tech).backgroundColor)
    ensures HexColor(CorrectedTechChipStyle(tech).borderColor)
  {
    if tech in TechColors {
      TechColorsSixDigits(tech);
      AlphaSuffixValid(TechColors[tech], "20");
      AlphaSuffixValid(TechColors[tech], "40");
    } else {
      assert SixDigitColor("#666666");
      AlphaSuffixValid("#666666", "20");
      AlphaSuffixValid("#666666", "40");
    }
  }

  /** The correction changes only the fallback: mapped techs and all text colours are drawn as before. */
  lemma CorrectedChipAgrees(tech: string)
    ensures CorrectedTechChipStyle(tech).color == TechChipStyle(tech).color
    ensures CorrectedTechChipStyle(tech).iconColor == TechChipStyle(tech).iconColor
    ensures tech in TechColors ==> CorrectedTechChipStyle(tech) == TechChipStyle(tech)
  {
  }

  /** The chips of a project as the page draws them: one per tech, in order; none when the stack is null. */
  function ProjectChips(p: Project): (chips: seq<ChipStyle>)
    ensures p.techStack.None? ==> chips == []
    ensures p.techStack.Some? ==> |chips| == |p.techStack.value|
    ensures p.techStack.Some? ==> forall i :: 0 <= i < |chips| ==> chips[i] == TechChipStyle(p.techStack.value[i])
  {
    match p.techStack
    case None => []
    case Some(stack) => seq(|stack|, i requires 0 <= i < |stack| => TechChipStyle(stack[i]))
  }

  /** The chips of a project with the six-digit fallback: every drawn colour is a valid CSS colour. */
  function CorrectedProjectChips(p: Project): (chips: seq<ChipStyle>)
    ensures p.techStack.None? ==> chips == []
    ensures p.techStack.Some? ==> |chips| == |p.techStack.value|
    ensures p.techStack.Some? ==> forall i :: 0 <= i < |chips| ==> chips[i] == CorrectedTechChipStyle(p.techStack.value[i])
    ensures forall i :: 0 <= i < |chips| ==> HexColor(chips[i].backgroundColor) && HexColor(chips[i].borderColor)
  {
    match p.techStack
    case None => []
    case Some(stack) =>
      var chips := seq(|stack|, i requires 0 <= i < |stack| => CorrectedTechChipStyle(stack[i]));
      assert forall i :: 0 <= i < |chips| ==> HexColor(chips[i].backgroundColor) && HexColor(chips[i].borderColor) by {
        forall i | 0 <= i < |chips|
          ensures HexColor(chips[i].backgroundColor) && HexColor(chips[i].borderColor)
        {
          CorrectedChipColorsValid(stack[i]);
        }
      }
      chips
  }

  /** The two chip lists differ only where a tech has no colour of its own. */
  lemma CorrectedProjectChipsAgree(p: Project, i: nat)
    requires p.techStack.Some? && i < |p.techStack.value|
    ensures p.techStack.value[i] in TechColors ==> CorrectedProjectChips(p)[i] == ProjectChips(p)[i]
    ensures p.techStack.value[i] !in TechColors ==>
      ProjectChips(p)[i].backgroundColor == "#66620" && CorrectedProjectChips(p)[i].backgroundColor == "#66666620"
  {
    CorrectedChipAgrees(p.techStack.value[i]);
  }

  // ---------------------------------------------------------------------------
  // The page's state

  class ProjectsPage {
    var projects: seq<Project>
    var loading: bool
    var imageLoading: LoadingTable

    /** Mounting: no projects, loading, and an empty image table. */
    constructor ()
      ensures projects == [] && loading && imageLoading == map[]
    {
      projects := [];
      loading := true;
      imageLoading := map[];
    }

    /**
     * The end of the fetch: rows (null as none) replace the list and the image table is
     * rebuilt from them; an error keeps both. Loading ends either way.
     */
    method FetchDone(response: Response<Project>)
      modifies this`projects, this`loading, this`imageLoading
      ensures response.Rows? ==> projects == response.data.GetOr([])
      ensures response.Rows? ==> imageLoading == AllLoading(projects)
      ensures response.Failed? ==> projects == old(projects) && imageLoading == old(imageLoading)
      ensures !loading
    {
      if response.Rows? {
        projects := response.data.GetOr([]);
        imageLoading := LoadingState(projects);
      }
      loading := false;
    }

    /** The table fill of the fetch: start empty and mark each project's id, in list order. */
    static method LoadingState(data: seq<Project>) returns (state: LoadingTable)
      ensures state == AllLoading(data)
      ensures state.Keys == Ids(data)
      ensures forall id :: id in state ==> state[id]
    {
      state := map[];
      var i := 0;
      while i < |data|
        invariant 0 <= i <= |data|
        invariant state == AllLoading(data[..i])
      {
        assert data[..i + 1][..i] == data[..i];
        state := state[data[i].id := true];
        i := i + 1;
      }
      assert data[..|data|] == data;
      AllLoadingExact(data);
    }

    method HandleImageLoad(id: int)
      modifies this`imageLoading
      ensures imageLoading == MarkLoaded(old(imageLoading), id)
    {
      imageLoading := MarkLoaded(imageLoading, id);
    }
  }
}
