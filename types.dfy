/** The entities of the review network: the feedback tag, the six life
    domains, reviews, user profiles and micro-posts. */
module Types {

  /** An optional field (`field?: T` in the record shapes). */
  datatype Option<+T> = None | Some(value: T)

  /** Coarse sentiment class of a review. */
  datatype FeedbackTag = Positive | Neutral | Constructive

  /** The six feedback domains, in declaration order. */
  datatype DomainType = Professional | Communication | Reliability | Leadership | Social | Dating

  /** The string each tag member carries at run time. */
  function TagName(t: FeedbackTag): string
  {
    match t
    case Positive => "POSITIVE"
    case Neutral => "NEUTRAL"
    case Constructive => "CONSTRUCTIVE"
  }

  /** The string each domain member carries at run time; it is also the
      label a chart falls back to when no translation exists. */
  function DomainName(d: DomainType): string
  {
    match d
    case Professional => "Professional"
    case Communication => "Communication"
    case Reliability => "Reliability"
    case Leadership => "Leadership"
    case Social => "Social"
    case Dating => "Dating"
  }

  /** The enumeration's values in declaration order (`Object.values`). */
  const AllDomains: seq<DomainType> :=
    [Professional, Communication, Reliability, Leadership, Social, Dating]

  const AllTags: seq<FeedbackTag> := [Positive, Neutral, Constructive]

  /** One feedback instance attached to the profile that received it. */
  datatype Review = Review(
    id: string,
    domain: DomainType,
    rating: int,
    comment: string,
    tag: FeedbackTag,
    createdAt: string)

  /** A review whose rating is on the one-to-five scale the form offers. */
  predicate ValidRating(r: Review)
  {
    1 <= r.rating <= 5
  }

  /** Identity and reputation snapshot of a member; badges, top skills and
      the weekly review count may be absent. */
  datatype UserProfile = UserProfile(
    id: string,
    name: string,
    username: string,
    avatar: string,
    trustScore: int,
    activeDomains: seq<DomainType>,
    reviews: seq<Review>,
    badges: Option<seq<string>>,
    topSkills: Option<seq<string>>,
    weeklyReviews: Option<int>)

  /** One reaction counter of a micro-post; `kind` is the record's `type`. */
  datatype Reaction = Reaction(kind: string, count: int)

  /** A short broadcast item of the activity stream. */
  datatype MicroPost = MicroPost(
    id: string,
    content: string,
    timestamp: string,
    reactions: seq<Reaction>)

  /** The domain list enumerates each of the six domains exactly once, and
      their run-time strings are pairwise distinct. */
  lemma AllDomainsEnumeratesOnce()
    ensures |AllDomains| == 6
    ensures forall d: DomainType :: d in AllDomains
    ensures forall i, j :: 0 <= i < j < |AllDomains| ==> AllDomains[i] != AllDomains[j]
    ensures forall i, j :: 0 <= i < j < |AllDomains| ==>
      DomainName(AllDomains[i]) != DomainName(AllDomains[j])
  {
    forall d: DomainType
      ensures d in AllDomains
    {
      match d
      case Professional => assert AllDomains[0] == d;
      case Communication => assert AllDomains[1] == d;
      case Reliability => assert AllDomains[2] == d;
      case Leadership => assert AllDomains[3] == d;
      case Social => assert AllDomains[4] == d;
      case Dating => assert AllDomains[5] == d;
    }
  }

  /** The tag list enumerates each of the three tags exactly once, with
      pairwise distinct run-time strings. */
  lemma AllTagsEnumeratesOnce()
    ensures |AllTags| == 3
    ensures forall t: FeedbackTag :: t in AllTags
    ensures forall i, j :: 0 <= i < j < |AllTags| ==> AllTags[i] != AllTags[j]
    ensures forall i, j :: 0 <= i < j < |AllTags| ==>
      TagName(AllTags[i]) != TagName(AllTags[j])
  {
    forall t: FeedbackTag
      ensures t in AllTags
    {
      match t
      case Positive => assert AllTags[0] == t;
      case Neutral => assert AllTags[1] == t;
      case Constructive => assert AllTags[2] == t;
    }
  }

  /** A domain is recovered from its run-time string. */
  lemma DomainNameInjective(a: DomainType, b: DomainType)
    ensures DomainName(a) == DomainName(b) <==> a == b
  {
  }
}
