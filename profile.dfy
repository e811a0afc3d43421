/**
  The profile page's classifiers: the colour of a course's progress bar, the
  status badge and its text, the language name and flag lookups, the active
  and soon-expiring subscriptions with the card's status dot and warning
  banner, and the action each enrolled course offers. Nothing here changes
  state; every figure is a function of the mock user data.
 */
module Profile {
  import opened Wrappers
  import opened Text
  import opened Seqs

  /** `getProgressColor`'s four bar colours. */
  datatype BarColor = Emerald | BlueBar | Yellow | GrayBar

  /** Exactly 100 is emerald; otherwise 75 and up is blue, 50 and up yellow,
      anything else gray. */
  function ProgressColor(progress: int): (c: BarColor)
    ensures c == Emerald <==> progress == 100
    ensures c == BlueBar <==> progress != 100 && progress >= 75
    ensures c == Yellow <==> 50 <= progress < 75
    ensures c == GrayBar <==> progress < 50
  {
    if progress == 100 then Emerald
    else if progress >= 75 then BlueBar
    else if progress >= 50 then Yellow
    else GrayBar
  }

  /** A progress above 100 is not emerald: the test is equality, not a bound. */
  lemma OverHundredIsBlue()
    ensures ProgressColor(101) == BlueBar
  {
  }

  function ProgressColorClass(c: BarColor): string {
    match c
    case Emerald => "bg-emerald-500"
    case BlueBar => "bg-blue-500"
    case Yellow => "bg-yellow-500"
    case GrayBar => "bg-gray-400"
  }

  /** The case split `getStatusBadge` and `getStatusText` share. */
  datatype CourseStatus = Completed | Paused | ActiveStatus

  /** A finished course is completed whatever its status says; otherwise a
      paused one is paused and every other status is active. */
  function StatusOf(status: string, progress: int): (s: CourseStatus)
    ensures s == Completed <==> progress == 100
    ensures s == Paused <==> progress != 100 && status == "paused"
    ensures s == ActiveStatus <==> progress != 100 && status != "paused"
  {
    if progress == 100 then Completed
    else if status == "paused" then Paused
    else ActiveStatus
  }

  function StatusText(s: CourseStatus): string {
    match s
    case Completed => "Completed"
    case Paused => "Paused"
    case ActiveStatus => "Active"
  }

  function StatusBadge(s: CourseStatus): string {
    match s
    case Completed => "bg-emerald-100 text-emerald-800"
    case Paused => "bg-orange-100 text-orange-800"
    case ActiveStatus => "bg-blue-100 text-blue-800"
  }

  /** `getStatusText(status, progress)`. */
  function GetStatusText(status: string, progress: int): (r: string)
    ensures r == "Completed" <==> progress == 100
    ensures r == "Paused" <==> progress != 100 && status == "paused"
    ensures r == "Active" <==> progress != 100 && status != "paused"
  {
    StatusText(StatusOf(status, progress))
  }

  /** `getStatusBadge(status, progress)`. */
  function GetStatusBadge(status: string, progress: int): (r: string)
    ensures r == "bg-emerald-100 text-emerald-800" <==> progress == 100
    ensures r == "bg-orange-100 text-orange-800" <==> progress != 100 && status == "paused"
    ensures r == "bg-blue-100 text-blue-800" <==> progress != 100 && status != "paused"
  {
    StatusBadge(StatusOf(status, progress))
  }

  /** Badge and text always tell the same story: the three texts are distinct,
      the three badges are distinct, and each text comes with one badge. */
  lemma BadgeMatchesText(status1: string, progress1: int, status2: string, progress2: int)
    ensures GetStatusText(status1, progress1) == GetStatusText(status2, progress2)
            <==> GetStatusBadge(status1, progress1) == GetStatusBadge(status2, progress2)
    ensures GetStatusText(status1, progress1) == "Completed" <==> progress1 == 100
  {
  }

  /** A course recorded as completed but below 100 is shown as active. */
  lemma CompletedStatusBelowHundredIsActive()
    ensures GetStatusText("completed", 99) == "Active"
  {
  }

  const LanguageNames: map<string, string> :=
    map["english" := "English", "japanese" := "Japanese", "spanish" := "Spanish", "french" := "French"]

  const LanguageFlags: map<string, string> :=
    map["english" := "\U{1F1FA}\U{1F1F8}", "japanese" := "\U{1F1EF}\U{1F1F5}",
        "spanish" := "\U{1F1EA}\U{1F1F8}", "french" := "\U{1F1EB}\U{1F1F7}"]

  const GlobeFlag: string := "\U{1F310}"

  /** `getLanguageName`: the display name, or the key itself when unknown. */
  function LanguageName(language: string): (r: string)
    ensures language in LanguageNames ==> r == LanguageNames[language]
    ensures language !in LanguageNames ==> r == language
    ensures r != ""  <==> language != ""
  {
    if language in LanguageNames then LanguageNames[language] else language
  }

  /** `getLanguageFlag`: the flag, or the globe when unknown. */
  function LanguageFlag(language: string): (r: string)
    ensures language in LanguageFlags ==> r == LanguageFlags[language]
    ensures language !in LanguageFlags ==> r == GlobeFlag
    ensures r != ""
  {
    if language in LanguageFlags then LanguageFlags[language] else GlobeFlag
  }

  /** Both tables know the same four languages, and no known flag is the
      globe, so the globe marks exactly the unknown keys. */
  lemma GlobeMarksUnknown(language: string)
    ensures language in LanguageNames <==> language in LanguageFlags
    ensures LanguageFlag(language) == GlobeFlag <==> language !in LanguageFlags
  {
    if language in LanguageFlags {
      assert LanguageFlags[language][0] != GlobeFlag[0];
    }
  }

  datatype Subscription = Subscription(active: bool, expiryDays: int, packageName: string, startDate: Option<string>)

  /** `Object.entries(userData.subscriptions)`: language and subscription, in
      the object's order. */
  type Entries = seq<(string, Subscription)>

  /** An object's entries: no language appears twice. */
  predicate KeysDistinct(subs: Entries) {
    forall i, j :: 0 <= i < j < |subs| ==> subs[i].0 != subs[j].0
  }

  const Subscriptions: Entries := [
    ("english", Subscription(true, 12, "English Premium", Some("March 2024"))),
    ("japanese", Subscription(true, 5, "Japanese Basic", Some("April 2024"))),
    ("spanish", Subscription(false, 0, "Spanish Complete", None)),
    ("french", Subscription(false, 0, "French Advanced", None))
  ]

  function IsActive(): ((string, Subscription)) -> bool {
    (e: (string, Subscription)) => e.1.active
  }

  function ExpiresWithinAWeek(): ((string, Subscription)) -> bool {
    (e: (string, Subscription)) => e.1.expiryDays <= 7
  }

  function ActiveAndExpiring(): ((string, Subscription)) -> bool {
    (e: (string, Subscription)) => e.1.active && e.1.expiryDays <= 7
  }

  /** `activeSubscriptions`. */
  function ActiveSubscriptions(subs: Entries): (r: Entries)
    ensures forall e :: e in r <==> e in subs && e.1.active
    ensures IsSubsequence(r, subs)
  {
    FilterIsSubsequence(IsActive(), subs);
    Filter(IsActive(), subs)
  }

  /** `expiringSoon`: the active subscriptions with a week or less left, in
      their order. */
  function ExpiringSoon(subs: Entries): (r: Entries)
    ensures forall e :: e in r <==> e in subs && e.1.active && e.1.expiryDays <= 7
    ensures IsSubsequence(r, ActiveSubscriptions(subs))
  {
    FilterIsSubsequence(ExpiresWithinAWeek(), ActiveSubscriptions(subs));
    Filter(ExpiresWithinAWeek(), ActiveSubscriptions(subs))
  }

  /** Filtering the active ones by expiry is one filter by both conditions. */
  lemma ExpiringSoonIsOneFilter(subs: Entries)
    ensures ExpiringSoon(subs) == Filter(ActiveAndExpiring(), subs)
    ensures IsSubsequence(ExpiringSoon(subs), subs)
  {
    FilterTwice(IsActive(), ExpiresWithinAWeek(), ActiveAndExpiring(), subs);
    SubsequenceTransitive(ExpiringSoon(subs), ActiveSubscriptions(subs), subs);
  }

  datatype Dot = AmberDot | EmeraldDot | GrayDot

  /** The card's status dot: amber over emerald over gray. */
  function StatusDot(subs: Entries): (d: Dot)
    ensures d == AmberDot <==> exists e :: e in subs && e.1.active && e.1.expiryDays <= 7
    ensures d == EmeraldDot <==> (forall e :: e in subs && e.1.active ==> e.1.expiryDays > 7)
                                 && exists e :: e in subs && e.1.active
    ensures d == GrayDot <==> forall e :: e in subs ==> !e.1.active
  {
    var expiring := ExpiringSoon(subs);
    var active := ActiveSubscriptions(subs);
    if |expiring| > 0 then
      assert expiring[0] in expiring;
      AmberDot
    else if |active| > 0 then
      assert active[0] in active;
      EmeraldDot
    else GrayDot
  }

  /** The warning banner's heading, when there is one. */
  function BannerTitle(subs: Entries): (r: Option<string>)
    ensures r.None? <==> |ExpiringSoon(subs)| == 0
    ensures r == Some("Subscription expiring soon") <==> |ExpiringSoon(subs)| == 1
    ensures r == Some("Multiple subscriptions expiring soon") <==> |ExpiringSoon(subs)| > 1
  {
    var n := |ExpiringSoon(subs)|;
    if n == 0 then None
    else if n == 1 then Some("Subscription expiring soon")
    else Some("Multiple subscriptions expiring soon")
  }

  /** The banner's sentence: the one language and its days, or the count. */
  function BannerMessage(subs: Entries): (r: Option<string>)
    ensures r.None? <==> |ExpiringSoon(subs)| == 0
    ensures |ExpiringSoon(subs)| == 1 ==>
              var e := ExpiringSoon(subs)[0];
              r.Some? && Contains(r.value, LanguageName(e.0)) && Contains(r.value, IntToString(e.1.expiryDays))
    ensures |ExpiringSoon(subs)| > 1 ==> r.Some? && Contains(r.value, NatToString(|ExpiringSoon(subs)|))
  {
    var expiring := ExpiringSoon(subs);
    if |expiring| == 0 then None
    else if |expiring| == 1 then
      var name, days := LanguageName(expiring[0].0), IntToString(expiring[0].1.expiryDays);
      var tail := " subscription will expire in " + days + " days.";
      assert "Your " + name + " subscription will expire in " + days + " days." == "Your " + name + tail;
      ContainsMiddle("Your ", name, tail);
      ContainsMiddle("Your " + name + " subscription will expire in ", days, " days.");
      Some("Your " + name + " subscription will expire in " + days + " days.")
    else
      var count := NatToString(|expiring|);
      ContainsMiddle("You have ", count, " subscriptions expiring within 7 days.");
      Some("You have " + count + " subscriptions expiring within 7 days.")
  }

  /** `userData.subscriptions[language]?.active`: an unknown language has no
      subscription and so none that is active. */
  function HasActiveSubscription(subs: Entries, language: string): (r: bool)
    ensures r ==> exists e :: e in subs && e.0 == language && e.1.active
    ensures (forall e :: e in subs ==> e.0 != language) ==> !r
    ensures KeysDistinct(subs) ==> (r <==> exists e :: e in subs && e.0 == language && e.1.active)
    decreases |subs|
  {
    if subs == [] then false
    else if subs[0].0 == language then
      assert KeysDistinct(subs) ==> forall e :: e in subs[1..] ==> e.0 != language by {
        if KeysDistinct(subs) {
          forall e | e in subs[1..] ensures e.0 != language {
            var j :| 0 <= j < |subs[1..]| && subs[1..][j] == e;
            assert subs[j + 1] == e;
          }
        }
      }
      subs[0].1.active
    else HasActiveSubscription(subs[1..], language)
  }

  /** The main button of an enrolled course. */
  datatype CourseAction = RenewToContinue | CompletedButton | ContinueLearning

  /** Without an active subscription the course can only be renewed, however
      far it got; otherwise a finished course shows "Completed" and any other
      "Continue Learning". */
  function ActionFor(hasActiveSubscription: bool, progress: int): (a: CourseAction)
    ensures a == RenewToContinue <==> !hasActiveSubscription
    ensures a == CompletedButton <==> hasActiveSubscription && progress == 100
    ensures a == ContinueLearning <==> hasActiveSubscription && progress != 100
  {
    if !hasActiveSubscription then RenewToContinue
    else if progress == 100 then CompletedButton
    else ContinueLearning
  }

  /** "Resume Course" needs an active subscription and a paused course. */
  predicate ResumeShown(hasActiveSubscription: bool, status: string) {
    hasActiveSubscription && status == "paused"
  }

  datatype EnrolledCourse = EnrolledCourse(id: nat, title: string, progress: int, status: string, language: string)

  const EnrolledCourses: seq<EnrolledCourse> := [
    EnrolledCourse(1, "English Conversation Mastery", 75, "active", "english"),
    EnrolledCourse(2, "Japanese for Beginners", 45, "active", "japanese"),
    EnrolledCourse(3, "Spanish Grammar Fundamentals", 100, "completed", "spanish"),
    EnrolledCourse(4, "French Pronunciation Workshop", 20, "paused", "french")
  ]

  /** The button a course card shows, from the user's subscription to the
      course's language. */
  function CourseActionOf(subs: Entries, c: EnrolledCourse): (a: CourseAction)
    ensures a == RenewToContinue <==> !HasActiveSubscription(subs, c.language)
    ensures a == CompletedButton <==> HasActiveSubscription(subs, c.language) && c.progress == 100
  {
    ActionFor(HasActiveSubscription(subs, c.language), c.progress)
  }

  /** The mock user: English and Japanese are active, and only Japanese
      expires within the week. */
  lemma MockActive()
    ensures ActiveSubscriptions(Subscriptions) == [Subscriptions[0], Subscriptions[1]]
  {
    var s := Subscriptions;
    FilterFour(IsActive(), s[0], s[1], s[2], s[3]);
    assert [s[0], s[1], s[2], s[3]] == s;
  }

  lemma MockExpiring()
    ensures ExpiringSoon(Subscriptions) == [Subscriptions[1]]
  {
    var s := Subscriptions;
    MockActive();
    FilterPair(ExpiresWithinAWeek(), s[0], s[1]);
  }

  /** So the dot is amber and the banner has the singular heading. */
  lemma MockBanner()
    ensures StatusDot(Subscriptions) == AmberDot
    ensures BannerTitle(Subscriptions) == Some("Subscription expiring soon")
  {
    MockExpiring();
    assert Subscriptions[1] in ExpiringSoon(Subscriptions);
  }

  /** The banner names Japanese alone, with its five days. */
  lemma MockBannerMessage()
    ensures BannerMessage(Subscriptions) == Some("Your " + "Japanese" + " subscription will expire in " + "5" + " days.")
  {
    MockExpiring();
    var e := ExpiringSoon(Subscriptions)[0];
    assert e == ("japanese", Subscription(true, 5, "Japanese Basic", Some("April 2024")));
    assert LanguageName(e.0) == "Japanese";
    assert IntToString(e.1.expiryDays) == "5" by {
      assert NatToString(5) == [Digit(5)];
    }
  }

  /** The mock courses: the two with active subscriptions continue; the
      finished Spanish course and the paused French one both ask for a
      renewal, and nobody is offered "Resume Course". */
  lemma MockCourseActions()
    ensures CourseActionOf(Subscriptions, EnrolledCourses[0]) == ContinueLearning
    ensures CourseActionOf(Subscriptions, EnrolledCourses[1]) == ContinueLearning
    ensures CourseActionOf(Subscriptions, EnrolledCourses[2]) == RenewToContinue
    ensures CourseActionOf(Subscriptions, EnrolledCourses[3]) == RenewToContinue
    ensures !ResumeShown(HasActiveSubscription(Subscriptions, "french"), "paused")
    ensures GetStatusText(EnrolledCourses[3].status, EnrolledCourses[3].progress) == "Paused"
  {
    MockSubscribed();
  }

  /** English and Japanese are subscribed to, Spanish and French are not. */
  lemma MockSubscribed()
    ensures HasActiveSubscription(Subscriptions, "english") && HasActiveSubscription(Subscriptions, "japanese")
    ensures !HasActiveSubscription(Subscriptions, "spanish") && !HasActiveSubscription(Subscriptions, "french")
  {
    var s := Subscriptions;
    assert s[0].0 == "english" && s[0].1.active;
    assert s[1..][0].0 == "japanese" && s[1..][0].1.active;
    assert s[1..][1..][0].0 == "spanish" && !s[1..][1..][0].1.active;
    assert s[1..][1..][1..][0].0 == "french" && !s[1..][1..][1..][0].1.active;
  }
}
