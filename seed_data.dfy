/** The hard-coded directory the application ships with, and what the
    directory view and the profile page derive from it. */
module SeedData {
  import opened Types
  import opened RadarChart
  import opened Feed
  import opened Profile
  import opened JsString
  import opened Seqs

  const ReviewOne := Review("1", Professional, 5, "Exceptional attention to detail in architecture.", Positive, "2024-03-20")
  const ReviewTwo := Review("2", Communication, 4, "Always clear, though can be a bit direct sometimes.", Constructive, "2024-03-18")
  const ReviewThree := Review("3", Leadership, 5, "Inspires the team to push boundaries.", Positive, "2024-03-15")
  const ReviewFour := Review("4", Social, 3, "Great energy but often skips the small talk.", Neutral, "2024-03-10")

  const Me: UserProfile := UserProfile(
    "me", "Alex Rivera", "arivera_tech", "https://picsum.photos/seed/alex/200", 98,
    [Professional, Communication, Leadership, Social],
    [ReviewOne, ReviewTwo, ReviewThree, ReviewFour],
    Some(["\U{2B50} Trusted", "\U{1F3C5} Architect"]),
    Some(["System Design", "Team Ops"]),
    Some(12))

  const Sarah: UserProfile := UserProfile(
    "u2", "Sarah Chen", "schen_design", "https://picsum.photos/seed/sarah/200", 94,
    [Professional, Communication], [],
    Some(["\U{1F3A8} Visualist"]), Some(["UI/UX", "Branding"]), Some(8))

  const Marcus: UserProfile := UserProfile(
    "u3", "Marcus Thorne", "mthorne_lead", "https://picsum.photos/seed/marcus/200", 89,
    [Leadership, Reliability], [],
    Some(["\U{26A1} Fast Lane"]), Some(["Management", "Strategy"]), Some(15))

  const Elena: UserProfile := UserProfile(
    "u4", "Elena Vance", "evance_rel", "https://picsum.photos/seed/elena/200", 91,
    [Reliability, Communication], [],
    Some(["\U{1F6E1}\U{FE0F} Reliable"]), Some(["Support", "Quality"]), Some(5))

  const Users: seq<UserProfile> := [Me, Sarah, Marcus, Elena]

  const MicroPosts: seq<MicroPost> := [
    MicroPost("mp1",
      "Just received a constructive review on my communication style. Learning to pause before replying. Growth hurts but helps! #SelfAware",
      "2h ago", [Reaction("\U{1F44D}", 12), Reaction("\U{1F914}", 4)]),
    MicroPost("mp2",
      "Building trust takes months, losing it takes seconds. Maintain your reputation protocols.",
      "5h ago", [Reaction("\U{1F440}", 22), Reaction("\U{1F6E1}\U{FE0F}", 8)])
  ]

  /** Featured: the three members above 90 in directory order; Marcus (89)
      is left out. */
  lemma SeedFeatured()
    ensures Featured(Users) == [Me, Sarah, Elena]
  {
    FeaturedIsFirstThree(Users);
    assert FirstQualifying([Elena], 1) == [Elena] by {
      assert [Elena][1..] == [];
    }
    assert FirstQualifying([Marcus, Elena], 1) == [Elena] by {
      assert [Marcus, Elena][1..] == [Elena];
    }
    assert FirstQualifying([Sarah, Marcus, Elena], 2) == [Sarah, Elena] by {
      assert [Sarah, Marcus, Elena][1..] == [Marcus, Elena];
    }
    assert Users[1..] == [Sarah, Marcus, Elena];
  }

  /** Trending: 15, 12, 8, 5 weekly reviews. */
  lemma SeedTrending()
    ensures Trending(Users) == [Marcus, Me, Sarah, Elena]
  {
    assert InsertByActivity([], Me) == [Me];
    assert Trending([Me]) == [Me] by {
      assert [Me][..0] == [];
    }
    assert InsertByActivity([Me], Sarah) == [Me, Sarah] by {
      assert [Me][1..] == [];
      assert InsertByActivity([], Sarah) == [Sarah];
    }
    assert Trending([Me, Sarah]) == [Me, Sarah] by {
      assert [Me, Sarah][..1] == [Me];
    }
    assert InsertByActivity([Me, Sarah], Marcus) == [Marcus, Me, Sarah];
    assert Trending([Me, Sarah, Marcus]) == [Marcus, Me, Sarah] by {
      assert [Me, Sarah, Marcus][..2] == [Me, Sarah];
    }
    assert InsertByActivity([Sarah], Elena) == [Sarah, Elena] by {
      assert [Sarah][1..] == [];
      assert InsertByActivity([], Elena) == [Elena];
    }
    assert InsertByActivity([Me, Sarah], Elena) == [Me, Sarah, Elena] by {
      assert [Me, Sarah][1..] == [Sarah];
    }
    assert InsertByActivity([Marcus, Me, Sarah], Elena) == [Marcus, Me, Sarah, Elena] by {
      assert [Marcus, Me, Sarah][1..] == [Me, Sarah];
    }
    assert Users[..3] == [Me, Sarah, Marcus];
  }

  /** One step of a filter: the head is kept when it passes. */
  lemma FilterStep(s: seq<UserProfile>, p: UserProfile -> bool)
    requires s != []
    ensures Filter(s, p) == (if p(s[0]) then [s[0]] else []) + Filter(s[1..], p)
  {
  }

  /** A string that lacks the first letter of `t` does not contain `t`. */
  lemma FirstLetterAbsent(s: string, t: string)
    requires t != [] && t[0] !in s
    ensures !Contains(s, t)
  {
    ContainsIffOccurs(s, t);
    forall i | 0 <= i
      ensures !OccursAt(s, t, i)
    {
      if i + |t| <= |s| {
        assert s[i..i + |t|][0] == s[i];
      }
    }
  }

  /** The lower-cased names and usernames of the directory. */
  lemma LowerTerm()
    ensures Lower("sarah") == "sarah"
  {
  }

  lemma LowerSarah()
    ensures Lower(Sarah.name) == "sarah chen"
  {
  }

  lemma LowerMe()
    ensures Lower(Me.name) == "alex rivera"
    ensures Lower(Me.username) == "arivera_tech"
  {
  }

  lemma LowerMarcus()
    ensures Lower(Marcus.name) == "marcus thorne"
    ensures Lower(Marcus.username) == "mthorne_lead"
  {
  }

  lemma LowerElena()
    ensures Lower(Elena.name) == "elena vance"
    ensures Lower(Elena.username) == "evance_rel"
  {
  }

  lemma SarahMatches()
    ensures Matches(Sarah, "sarah")
  {
    LowerTerm();
    LowerSarah();
    assert "sarah chen"[..5] == "sarah";
  }

  /** A member whose lower-cased name and username both lack the first
      letter of the lower-cased term does not match it. */
  lemma LetterMissing(u: UserProfile, term: string)
    requires term != []
    requires Lower(term)[0] !in Lower(u.name) && Lower(term)[0] !in Lower(u.username)
    ensures !Matches(u, term)
  {
    FirstLetterAbsent(Lower(u.name), Lower(term));
    FirstLetterAbsent(Lower(u.username), Lower(term));
  }

  lemma MeDoesNotMatch()
    ensures !Matches(Me, "sarah")
  {
    LowerTerm();
    LowerMe();
    LetterMissing(Me, "sarah");
  }

  lemma ElenaDoesNotMatch()
    ensures !Matches(Elena, "sarah")
  {
    LowerTerm();
    LowerElena();
    LetterMissing(Elena, "sarah");
  }

  /** Leading characters that differ from the first letter of `t` can be
      skipped when looking for `t`. */
  lemma {:induction false} SkipLeading(s: string, t: string, k: nat)
    requires t != [] && k <= |s|
    requires forall i :: 0 <= i < k ==> s[i] != t[0]
    ensures Contains(s, t) <==> Contains(s[k..], t)
  {
    if k > 0 {
      if |t| <= |s| {
        assert s[..|t|][0] == s[0];
      }
      assert s[1..][k - 1..] == s[k..];
      SkipLeading(s[1..], t, k - 1);
    }
  }

  lemma TailAfterSpace()
    ensures !Contains("s thorne", "sarah")
  {
    assert "s thorne"[..5][1] == ' ';
    assert "s thorne"[1..] == " thorne";
    FirstLetterAbsent(" thorne", "sarah");
  }

  /** "marcus thorne" has its only `s` followed by a space. */
  lemma MarcusNameLacksTerm()
    ensures !Contains("marcus thorne", "sarah")
  {
    SkipLeading("marcus thorne", "sarah", 5);
    assert "marcus thorne"[5..] == "s thorne";
    TailAfterSpace();
  }

  lemma MarcusDoesNotMatch()
    ensures !Matches(Marcus, "sarah")
  {
    LowerTerm();
    LowerMarcus();
    FirstLetterAbsent("mthorne_lead", "sarah");
    MarcusNameLacksTerm();
  }

  /** Searching "sarah" finds Sarah Chen only, by her name. */
  lemma SeedSearchSarah()
    ensures Search(Users, "sarah") == [Sarah]
  {
    var p := MatchesTerm("sarah");
    SarahMatches();
    MeDoesNotMatch();
    MarcusDoesNotMatch();
    ElenaDoesNotMatch();
    FilterStep([Elena], p);
    assert [Elena][1..] == [];
    FilterStep([Marcus, Elena], p);
    assert [Marcus, Elena][1..] == [Elena];
    FilterStep([Sarah, Marcus, Elena], p);
    assert [Sarah, Marcus, Elena][1..] == [Marcus, Elena];
    FilterStep(Users, p);
    assert Users[1..] == [Sarah, Marcus, Elena];
  }

  /** One step of the per-domain count and sum. */
  lemma MeasureStep(r: Review, rest: seq<Review>, d: DomainType)
    ensures CountIn([r] + rest, d) == (if r.domain == d then 1 else 0) + CountIn(rest, d)
    ensures SumIn([r] + rest, d) == (if r.domain == d then r.rating else 0) + SumIn(rest, d)
  {
    assert ([r] + rest)[1..] == rest;
  }

  /** The self profile has one review in each of its four active domains. */
  lemma MeMeasure(d: DomainType)
    ensures CountIn(Me.reviews, d) == (if d in Me.activeDomains then 1 else 0)
    ensures SumIn(Me.reviews, d) ==
      if d == Professional || d == Leadership then 5
      else if d == Communication then 4
      else if d == Social then 3
      else 0
  {
    MeasureStep(ReviewFour, [], d);
    MeasureStep(ReviewThree, [ReviewFour], d);
    MeasureStep(ReviewTwo, [ReviewThree, ReviewFour], d);
    MeasureStep(ReviewOne, [ReviewTwo, ReviewThree, ReviewFour], d);
    assert [ReviewFour] == [ReviewFour] + [];
    assert [ReviewThree, ReviewFour] == [ReviewThree] + [ReviewFour];
    assert [ReviewTwo, ReviewThree, ReviewFour] == [ReviewTwo] + [ReviewThree, ReviewFour];
    assert Me.reviews == [ReviewOne] + [ReviewTwo, ReviewThree, ReviewFour];
  }

  /** The self profile's chart: 5, 4, 0, 5, 3, 0 across the six domains. */
  lemma SeedChart()
    ensures DomainAverage(Me.reviews, Professional) == 5.0
    ensures DomainAverage(Me.reviews, Communication) == 4.0
    ensures DomainAverage(Me.reviews, Reliability) == 0.0
    ensures DomainAverage(Me.reviews, Leadership) == 5.0
    ensures DomainAverage(Me.reviews, Social) == 3.0
    ensures DomainAverage(Me.reviews, Dating) == 0.0
  {
    MeMeasure(Professional);
    MeMeasure(Communication);
    MeMeasure(Reliability);
    MeMeasure(Leadership);
    MeMeasure(Social);
    MeMeasure(Dating);
  }

  /** Routes: `/profile/u3` shows Marcus at level 8 with the feedback button;
      an unknown id falls back to the self profile (level 9), where the button
      as written still shows. */
  lemma SeedRoutes()
    ensures ResolveProfile(Me, Users, Some("u3")) == Marcus
    ensures Level(Marcus.trustScore) == 8
    ensures ShowFeedbackButton(Some("u3"))
    ensures ResolveProfile(Me, Users, Some("u9")) == Me
    ensures Level(Me.trustScore) == 9
    ensures !ShowFeedbackButton(Some("me"))
    ensures ShowFeedbackButton(Some("u9")) && !CanSubmitFeedback(Me, Users, Some("u9"))
  {
  }
}
