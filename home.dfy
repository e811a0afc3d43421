/**
  The home page's state: the testimonial carousel that a five-second
  interval advances and the dots select, the "Fox Coins" counter that the
  daily bonus raises, the section flags that scrolling sets, and the pure
  figures drawn from them (the streak dots and each course's XP per lesson).
 */
module Home {
  import Courses

  datatype Testimonial = Testimonial(name: string, age: string, text: string, avatar: string)

  const Testimonials: seq<Testimonial> := [
    Testimonial("Sarah Chen", "Adult Learner",
                "TomoLearn made Spanish fun again! The fox mascot keeps me motivated every day.",
                "\U{1F469}\U{200D}\U{1F4BC}"),
    Testimonial("Marcus Johnson", "Student, 16",
                "I went from zero to conversational in French in just 3 months. The gamification is addictive!",
                "\U{1F468}\U{200D}\U{1F393}"),
    Testimonial("Emma Rodriguez", "Parent & Learner",
                "My daughter and I both use TomoLearn. It's perfect for family learning time!",
                "\U{1F469}\U{200D}\U{1F467}")
  ]

  /** One interval tick: the next testimonial, wrapping round after the last. */
  function Rotate(current: nat, count: nat): (next: nat)
    requires count > 0
    ensures next < count
    ensures current + 1 < count ==> next == current + 1
    ensures current + 1 == count ==> next == 0
  {
    (current + 1) % count
  }

  /** `n` ticks of the interval. */
  function Rotations(current: nat, count: nat, n: nat): nat
    requires count > 0
    decreases n
  {
    if n == 0 then current else Rotations(Rotate(current, count), count, n - 1)
  }

  /** Ticks compose: `a` ticks and then `b` more are `a + b` ticks. */
  lemma {:induction false} RotationsAdd(current: nat, count: nat, a: nat, b: nat)
    requires count > 0
    ensures Rotations(current, count, a + b) == Rotations(Rotations(current, count, a), count, b)
    decreases a
  {
    if a > 0 {
      RotationsAdd(Rotate(current, count), count, a - 1, b);
    }
  }

  /** Before the wrap, each tick moves one place on. */
  lemma {:induction false} RotationsUp(current: nat, count: nat, n: nat)
    requires count > 0 && current + n < count
    ensures Rotations(current, count, n) == current + n
    decreases n
  {
    if n > 0 {
      RotationsUp(current + 1, count, n - 1);
    }
  }

  /** The carousel always shows one of the testimonials. */
  lemma {:induction false} RotationsInRange(current: nat, count: nat, n: nat)
    requires count > 0 && current < count
    ensures Rotations(current, count, n) < count
    decreases n
  {
    if n > 0 {
      RotationsInRange(Rotate(current, count), count, n - 1);
    }
  }

  /** A full round of ticks brings back the testimonial shown at the start:
      up to the last one, over to the first, and on to where it began. */
  lemma FullRoundReturns(current: nat, count: nat)
    requires count > 0 && current < count
    ensures Rotations(current, count, count) == current
  {
    var toLast := count - 1 - current;
    RotationsUp(current, count, toLast);
    RotationsAdd(current, count, toLast, 1);
    assert Rotations(current, count, toLast + 1) == 0;
    RotationsAdd(current, count, toLast + 1, current);
    RotationsUp(0, count, current);
  }

  /** The dots: the one for the current testimonial is highlighted. */
  function HighlightedDots(current: nat, count: nat): (dots: seq<bool>)
    ensures |dots| == count
    ensures forall i :: 0 <= i < count ==> (dots[i] <==> i == current)
  {
    seq(count, i requires 0 <= i < count => i == current)
  }

  /** Exactly one dot is highlighted. */
  lemma ExactlyOneHighlighted(current: nat, count: nat)
    requires current < count
    ensures (set i | 0 <= i < count && HighlightedDots(current, count)[i]) == {current}
  {
  }

  /** The initial coins and the daily bonus. */
  const InitialRewards: int := 1250
  const DailyBonus: int := 50

  /** The coins after `k` bonus claims. */
  function AfterClaims(rewards: int, k: nat): int
    decreases k
  {
    if k == 0 then rewards else AfterClaims(rewards + DailyBonus, k - 1)
  }

  lemma {:induction false} AfterClaimsClosedForm(rewards: int, k: nat)
    ensures AfterClaims(rewards, k) == rewards + DailyBonus * k
    decreases k
  {
    if k > 0 {
      AfterClaimsClosedForm(rewards + DailyBonus, k - 1);
    }
  }

  /** From the initial 1250 coins, `k` claims give 1250 + 50k. */
  lemma ClaimsFromStart(k: nat)
    ensures AfterClaims(InitialRewards, k) == 1250 + 50 * k
  {
    AfterClaimsClosedForm(InitialRewards, k);
  }

  datatype SectionKey = ProgressSection | CoursesSection | FeaturesSection | TestimonialsSection | CommunitySection

  /** `[...Array(7)]`: the streak row's dots, filled for the first `streakDays`. */
  function StreakDots(streakDays: int): (dots: seq<bool>)
    ensures |dots| == 7
    ensures forall i :: 0 <= i < 7 ==> (dots[i] <==> i < streakDays)
  {
    seq(7, i requires 0 <= i < 7 => i < streakDays)
  }

  /** The filled dots come first: a filled dot has only filled dots before it. */
  lemma StreakDotsArePrefix(streakDays: int, i: nat, j: nat)
    requires i <= j < 7
    ensures StreakDots(streakDays)[j] ==> StreakDots(streakDays)[i]
  {
  }

  /** The initial seven-day streak fills every dot. */
  lemma FullWeekStreak()
    ensures forall i :: 0 <= i < 7 ==> StreakDots(7)[i]
  {
  }

  /** The three course cards' XP per lesson. */
  lemma HomeCoursesPerLesson()
    ensures Courses.PerLessonXp(2000, 24) == 83
    ensures Courses.PerLessonXp(2000, 18) == 111
    ensures Courses.PerLessonXp(2000, 12) == 166
  {
  }

  class HomePage {
    var streakDays: int
    var currentTestimonial: nat
    var rewards: int
    var visibleSections: map<SectionKey, bool>

    /** The carousel position names a testimonial and every section has a flag. */
    ghost predicate Valid()
      reads this
    {
      && currentTestimonial < |Testimonials|
      && forall k: SectionKey :: k in visibleSections
    }

    constructor ()
      ensures Valid()
      ensures streakDays == 7 && currentTestimonial == 0 && rewards == InitialRewards
      ensures forall k :: k in visibleSections && !visibleSections[k]
    {
      streakDays := 7;
      currentTestimonial := 0;
      rewards := InitialRewards;
      visibleSections := map[ProgressSection := false, CoursesSection := false, FeaturesSection := false,
                             TestimonialsSection := false, CommunitySection := false];
      new;
      assert forall k: SectionKey :: k in visibleSections by {
        forall k: SectionKey ensures k in visibleSections {
          match k
          case ProgressSection =>
          case CoursesSection =>
          case FeaturesSection =>
          case TestimonialsSection =>
          case CommunitySection =>
        }
      }
    }

    /** The five-second interval fires. */
    method NextTestimonial()
      requires Valid()
      modifies this
      ensures Valid()
      ensures currentTestimonial == Rotate(old(currentTestimonial), |Testimonials|)
      ensures rewards == old(rewards) && visibleSections == old(visibleSections)
      ensures streakDays == old(streakDays)
    {
      currentTestimonial := (currentTestimonial + 1) % |Testimonials|;
    }

    /** A click on dot `index`; the dots exist only for the testimonials. */
    method SelectTestimonial(index: nat)
      requires Valid() && index < |Testimonials|
      modifies this
      ensures Valid()
      ensures currentTestimonial == index
      ensures rewards == old(rewards) && visibleSections == old(visibleSections)
      ensures streakDays == old(streakDays)
    {
      currentTestimonial := index;
    }

    /** "Claim Daily Bonus". */
    method ClaimBonus()
      requires Valid()
      modifies this
      ensures Valid()
      ensures rewards == old(rewards) + DailyBonus
      ensures currentTestimonial == old(currentTestimonial) && visibleSections == old(visibleSections)
      ensures streakDays == old(streakDays)
    {
      rewards := rewards + DailyBonus;
    }

    /** An observer callback for `name`: an intersecting entry sets that
        section's flag; nothing ever clears one. */
    method SectionObserved(name: SectionKey, isIntersecting: bool)
      requires Valid()
      modifies this
      ensures Valid()
      ensures isIntersecting ==> visibleSections == old(visibleSections)[name := true]
      ensures !isIntersecting ==> visibleSections == old(visibleSections)
      ensures forall k :: old(visibleSections)[k] ==> visibleSections[k]
      ensures forall k :: k != name ==> visibleSections[k] == old(visibleSections)[k]
      ensures currentTestimonial == old(currentTestimonial) && rewards == old(rewards)
      ensures streakDays == old(streakDays)
    {
      if isIntersecting {
        visibleSections := visibleSections[name := true];
      }
    }
  }

  /** Three interval ticks bring the carousel back to the first testimonial;
      two claims add a hundred coins. */
  method HomeScenario() returns (afterTwo: nat, afterThree: nat, coins: int)
    ensures afterTwo == 2 && afterThree == 0 && coins == 1350
  {
    var page := new HomePage();
    page.NextTestimonial();
    page.NextTestimonial();
    afterTwo := page.currentTestimonial;
    page.NextTestimonial();
    afterThree := page.currentTestimonial;
    page.ClaimBonus();
    page.ClaimBonus();
    coins := page.rewards;
  }
}
