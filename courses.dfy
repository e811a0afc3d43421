/**
  The course catalogue page: eight courses, a language and a level
  selection whose `'all'` value switches that condition off, the effect that
  recomputes the listed courses from the two selections, and the figures
  each card and the heading derive from the list.
 */
module Courses {
  import opened Seqs

  /** A catalogue entry; the subtitle, duration and colour are display only. */
  datatype Course = Course(id: nat, language: string, level: string, title: string,
                           progress: nat, xp: nat, totalXp: nat, lessons: nat, isStarted: bool)

  /** The selection value that matches every course. */
  const All: string := "all"

  const BeginnerEnglish := Course(1, "english", "beginner", "Beginner English", 65, 1250, 2000, 24, true)
  const BeginnerSpanish := Course(2, "spanish", "beginner", "Beginner Spanish", 40, 800, 2000, 18, true)
  const IntermediateFrench := Course(3, "french", "intermediate", "Intermediate French", 20, 400, 2000, 12, true)
  const BeginnerJapanese := Course(4, "japanese", "beginner", "Beginner Japanese", 0, 0, 2500, 30, false)
  const BeginnerGerman := Course(5, "german", "beginner", "Beginner German", 0, 0, 2000, 22, false)
  const BeginnerKorean := Course(6, "korean", "beginner", "Beginner Korean", 0, 0, 2300, 26, false)
  const IntermediateEnglish := Course(7, "english", "intermediate", "Intermediate English", 0, 0, 2800, 32, false)
  const AdvancedSpanish := Course(8, "spanish", "advanced", "Advanced Spanish", 0, 0, 3500, 40, false)

  /** The catalogue, in display order. */
  const Catalogue: seq<Course> := [BeginnerEnglish, BeginnerSpanish, IntermediateFrench, BeginnerJapanese,
                                   BeginnerGerman, BeginnerKorean, IntermediateEnglish, AdvancedSpanish]

  /** A course passes the language condition when the selection is `'all'` or
      its language. */
  predicate LanguageMatches(selectedLanguage: string, c: Course) {
    selectedLanguage == All || c.language == selectedLanguage
  }

  predicate LevelMatches(selectedLevel: string, c: Course) {
    selectedLevel == All || c.level == selectedLevel
  }

  predicate Matches(selectedLanguage: string, selectedLevel: string, c: Course) {
    LanguageMatches(selectedLanguage, c) && LevelMatches(selectedLevel, c)
  }

  /** The callbacks passed to `filter`. */
  function LanguageIs(language: string): Course -> bool {
    (c: Course) => c.language == language
  }

  function LevelIs(level: string): Course -> bool {
    (c: Course) => c.level == level
  }

  function MatchesBoth(selectedLanguage: string, selectedLevel: string): Course -> bool {
    c => Matches(selectedLanguage, selectedLevel, c)
  }

  /** The list the page should show: exactly the courses passing both
      conditions, in catalogue order. */
  function Listed(selectedLanguage: string, selectedLevel: string, courses: seq<Course>): (r: seq<Course>)
    ensures forall c :: c in r ==> LanguageMatches(selectedLanguage, c) && LevelMatches(selectedLevel, c)
    ensures forall c :: c in courses && Matches(selectedLanguage, selectedLevel, c) ==> c in r
    ensures IsSubsequence(r, courses)
  {
    FilterIsSubsequence(MatchesBoth(selectedLanguage, selectedLevel), courses);
    Filter(MatchesBoth(selectedLanguage, selectedLevel), courses)
  }

  /** With both selections on `'all'` the whole catalogue is listed. */
  lemma AllListsEverything(courses: seq<Course>)
    ensures Listed(All, All, courses) == courses
  {
    FilterKeepsAll(MatchesBoth(All, All), courses);
  }

  /** The effect's narrowing, one filter per selection that is not `'all'`,
      gives the listed courses. */
  lemma ListedIsTwoFilters(selectedLanguage: string, selectedLevel: string, courses: seq<Course>)
    ensures var byLanguage := if selectedLanguage != All then Filter(LanguageIs(selectedLanguage), courses) else courses;
            var byLevel := if selectedLevel != All then Filter(LevelIs(selectedLevel), byLanguage) else byLanguage;
            byLevel == Listed(selectedLanguage, selectedLevel, courses)
  {
    var lang, lvl := LanguageIs(selectedLanguage), LevelIs(selectedLevel);
    var both := MatchesBoth(selectedLanguage, selectedLevel);
    if selectedLanguage != All && selectedLevel != All {
      FilterTwice(lang, lvl, both, courses);
    } else if selectedLanguage != All {
      FilterExtensional(lang, both, courses);
    } else if selectedLevel != All {
      FilterExtensional(lvl, both, courses);
    } else {
      FilterKeepsAll(both, courses);
    }
  }

  /** The heading's noun: singular exactly when one course matches. */
  function CountNoun(count: nat): (noun: string)
    ensures noun == "course" <==> count == 1
    ensures noun == "courses" <==> count != 1
  {
    if count == 1 then "course" else "courses"
  }

  /** The "No courses found" panel. */
  predicate NoResultsShown(listed: seq<Course>) {
    |listed| == 0
  }

  /** The panel appears exactly when no course passes both conditions. */
  lemma NoResultsIff(selectedLanguage: string, selectedLevel: string, courses: seq<Course>)
    ensures NoResultsShown(Listed(selectedLanguage, selectedLevel, courses))
            <==> forall c :: c in courses ==> !Matches(selectedLanguage, selectedLevel, c)
  {
    FilterEmpty(MatchesBoth(selectedLanguage, selectedLevel), courses);
  }

  /** `Math.floor(totalXp / lessons)`. */
  function PerLessonXp(totalXp: int, lessons: int): (r: int)
    requires lessons > 0
    ensures r * lessons <= totalXp < (r + 1) * lessons
  {
    totalXp / lessons
  }

  /** Every catalogue course has lessons, so its per-lesson figure is defined. */
  lemma CatalogueHasLessons()
    ensures forall c :: c in Catalogue ==> c.lessons > 0
  {
  }

  /** The catalogue's ids are distinct. */
  lemma CatalogueIdsDistinct()
    ensures forall i, j | 0 <= i < j < |Catalogue| :: Catalogue[i].id != Catalogue[j].id
  {
  }

  /** The effect's body: start from the courses and narrow them by each
      selection that is not `'all'`. */
  method Narrow(courses: seq<Course>, selectedLanguage: string, selectedLevel: string)
    returns (filtered: seq<Course>)
    ensures filtered == Listed(selectedLanguage, selectedLevel, courses)
  {
    filtered := courses;
    if selectedLanguage != All {
      filtered := Filter(LanguageIs(selectedLanguage), filtered);
    }
    if selectedLevel != All {
      filtered := Filter(LevelIs(selectedLevel), filtered);
    }
    ListedIsTwoFilters(selectedLanguage, selectedLevel, courses);
  }

  class CoursesPage {
    var selectedLanguage: string
    var selectedLevel: string
    /** What the grid renders; empty until the effect has run once. */
    var filteredCourses: seq<Course>

    constructor ()
      ensures selectedLanguage == All && selectedLevel == All && filteredCourses == []
    {
      selectedLanguage := All;
      selectedLevel := All;
      filteredCourses := [];
    }

    /** The effect, over the catalogue. */
    method ApplyFilters()
      modifies this
      ensures filteredCourses == Listed(selectedLanguage, selectedLevel, Catalogue)
      ensures selectedLanguage == old(selectedLanguage) && selectedLevel == old(selectedLevel)
    {
      filteredCourses := Narrow(Catalogue, selectedLanguage, selectedLevel);
    }

    /** Picking a language; the effect then runs. */
    method SelectLanguage(language: string)
      modifies this
      ensures selectedLanguage == language && selectedLevel == old(selectedLevel)
      ensures filteredCourses == Listed(language, selectedLevel, Catalogue)
    {
      selectedLanguage := language;
      ApplyFilters();
    }

    /** Picking a level; the effect then runs. */
    method SelectLevel(level: string)
      modifies this
      ensures selectedLevel == level && selectedLanguage == old(selectedLanguage)
      ensures filteredCourses == Listed(selectedLanguage, level, Catalogue)
    {
      selectedLevel := level;
      ApplyFilters();
    }

    /** "Clear Filters": both selections back to `'all'`, so the whole
        catalogue is listed again. */
    method ClearFilters()
      modifies this
      ensures selectedLanguage == All && selectedLevel == All
      ensures filteredCourses == Catalogue
    {
      selectedLanguage := All;
      selectedLevel := All;
      ApplyFilters();
      AllListsEverything(Catalogue);
    }
  }

  /** The same over the catalogue. */
  lemma FilterCatalogue(p: Course -> bool)
    ensures Filter(p, Catalogue)
            == ((Keep(p, BeginnerEnglish) + Keep(p, BeginnerSpanish))
                + (Keep(p, IntermediateFrench) + Keep(p, BeginnerJapanese)))
               + ((Keep(p, BeginnerGerman) + Keep(p, BeginnerKorean))
                + (Keep(p, IntermediateEnglish) + Keep(p, AdvancedSpanish)))
  {
    FilterEight(p, BeginnerEnglish, BeginnerSpanish, IntermediateFrench, BeginnerJapanese,
                BeginnerGerman, BeginnerKorean, IntermediateEnglish, AdvancedSpanish);
  }

  lemma SpanishListed()
    ensures Listed("spanish", All, Catalogue) == [BeginnerSpanish, AdvancedSpanish]
  {
    FilterCatalogue(MatchesBoth("spanish", All));
  }

  lemma AdvancedSpanishListed()
    ensures Listed("spanish", "advanced", Catalogue) == [AdvancedSpanish]
  {
    ListedIsTwoFilters("spanish", All, Catalogue);
    SpanishListed();
    ListedIsTwoFilters("spanish", "advanced", Catalogue);
    FilterPair(LevelIs("advanced"), BeginnerSpanish, AdvancedSpanish);
  }

  lemma NothingKoreanAdvanced()
    ensures Listed("korean", "advanced", Catalogue) == []
  {
    NoResultsIff("korean", "advanced", Catalogue);
  }

  /** Selecting Spanish lists the two Spanish courses; adding the advanced
      level keeps only the last of them. */
  method BrowseSpanish() returns (spanish: seq<nat>, advancedSpanish: seq<nat>)
    ensures spanish == [2, 8] && advancedSpanish == [8]
  {
    var page := new CoursesPage();
    page.ApplyFilters();
    page.SelectLanguage("spanish");
    SpanishListed();
    spanish := Ids(page.filteredCourses);
    page.SelectLevel("advanced");
    AdvancedSpanishListed();
    advancedSpanish := Ids(page.filteredCourses);
  }

  /** A combination nothing matches shows the empty panel until the filters
      are cleared, which lists the whole catalogue again. */
  method EmptyUntilCleared() returns (koreanAdvancedEmpty: bool, clearedCount: nat)
    ensures koreanAdvancedEmpty && clearedCount == 8
  {
    var page := new CoursesPage();
    page.SelectLanguage("korean");
    page.SelectLevel("advanced");
    NothingKoreanAdvanced();
    koreanAdvancedEmpty := NoResultsShown(page.filteredCourses);
    page.ClearFilters();
    clearedCount := |page.filteredCourses|;
  }

  function Ids(courses: seq<Course>): (ids: seq<nat>)
    ensures |ids| == |courses|
    ensures forall i :: 0 <= i < |courses| ==> ids[i] == courses[i].id
  {
    seq(|courses|, i requires 0 <= i < |courses| => courses[i].id)
  }
}
