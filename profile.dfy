/** The profile page's rules: which profile a route shows, the level badge,
    the star row of each review, whether feedback may be submitted and which
    domains the feedback form offers. */
module Profile {
  import opened Types
  import opened RadarChart

  /** The route id reserved for the signed-in member's own profile. */
  const SelfId: string := "me"

  /** Stars drawn per review. */
  const StarCount: nat := 5

  /** `users.find(u => u.id === id)`: the first member with that id. */
  function FindById(users: seq<UserProfile>, id: string): (r: Option<UserProfile>)
    ensures r.None? <==> forall u :: u in users ==> u.id != id
    ensures r.Some? ==> r.value.id == id
    ensures r.Some? ==>
      exists i :: 0 <= i < |users| && users[i] == r.value && forall j :: 0 <= j < i ==> users[j].id != id
  {
    if users == [] then None
    else if users[0].id == id then Some(users[0])
    else
      var rest := FindById(users[1..], id);
      FirstMatchInTail(users, id, rest);
      rest
  }

  /** When the head lacks the id, the first match in the tail is the first
      match in the whole list, and a tail without the id leaves none. */
  lemma FirstMatchInTail(users: seq<UserProfile>, id: string, rest: Option<UserProfile>)
    requires users != [] && users[0].id != id
    requires rest.None? <==> forall u :: u in users[1..] ==> u.id != id
    requires rest.Some? ==>
      exists i :: 0 <= i < |users[1..]| && users[1..][i] == rest.value && forall j :: 0 <= j < i ==> users[1..][j].id != id
    ensures rest.None? <==> forall u :: u in users ==> u.id != id
    ensures rest.Some? ==>
      exists i :: 0 <= i < |users| && users[i] == rest.value && forall j :: 0 <= j < i ==> users[j].id != id
  {
    assert forall u :: u in users ==> u == users[0] || u in users[1..];
    if rest.Some? {
      var i :| 0 <= i < |users[1..]| && users[1..][i] == rest.value && forall j :: 0 <= j < i ==> users[1..][j].id != id;
      assert users[i + 1] == rest.value;
      assert forall j :: 0 <= j < i + 1 ==> users[j].id != id by {
        forall j | 0 <= j < i + 1
          ensures users[j].id != id
        {
          if j > 0 {
            assert users[j] == users[1..][j - 1];
          }
        }
      }
    }
  }

  /** The profile a route shows: the self profile for the reserved id,
      otherwise the first member with the route's id, and the self profile
      again when there is no id (the `/me` route) or no member has it. */
  function ResolveProfile(me: UserProfile, users: seq<UserProfile>, id: Option<string>): (u: UserProfile)
    ensures id == Some(SelfId) ==> u == me
    ensures id == None ==> u == me
    ensures id.Some? && id.value != SelfId && (exists v :: v in users && v.id == id.value) ==>
      u in users && u.id == id.value
    ensures id.Some? && (forall v :: v in users ==> v.id != id.value) ==> u == me
    ensures id.Some? && id.value != SelfId && FindById(users, id.value).Some? ==>
      u == FindById(users, id.value).value
  {
    match id
    case None => me
    case Some(s) =>
      if s == SelfId then me
      else
        match FindById(users, s)
        case Some(v) => v
        case None => me
  }

  /** `Math.floor(trustScore / 10)`: the level badge. */
  function Level(trustScore: int): (lvl: int)
    ensures lvl * 10 <= trustScore < lvl * 10 + 10
  {
    trustScore / 10
  }

  /** A trust score on the 0..100 scale shows a level from 0 to 10. */
  lemma LevelRange(trustScore: int)
    requires 0 <= trustScore <= 100
    ensures 0 <= Level(trustScore) <= 10
  {
  }

  /** The level never decreases as the trust score grows. */
  lemma LevelMonotone(s: int, t: int)
    requires s <= t
    ensures Level(s) <= Level(t)
  {
  }

  /** The star row of a review: star `k` (1 to 5) is lit iff `k <= rating`. */
  function Stars(rating: int): (row: seq<bool>)
    ensures |row| == StarCount
    ensures forall i :: 0 <= i < StarCount ==> (row[i] <==> i + 1 <= rating)
  {
    seq(StarCount, i requires 0 <= i < StarCount => i + 1 <= rating)
  }

  function CountLit(row: seq<bool>): nat
  {
    if row == [] then 0 else (if row[0] then 1 else 0) + CountLit(row[1..])
  }

  /** A star row lights `rating` stars, clamped to the 0..5 row. */
  lemma LitStarsMatchRating(rating: int)
    ensures CountLit(Stars(rating)) == if rating < 0 then 0 else if rating > 5 then 5 else rating
  {
    var n := if rating < 0 then 0 else if rating > 5 then 5 else rating;
    CountLitPrefix(Stars(rating), n);
  }

  /** A row whose lit stars are exactly its first `n` has `n` lit stars. */
  lemma {:induction false} CountLitPrefix(row: seq<bool>, n: int)
    requires 0 <= n <= |row|
    requires forall i :: 0 <= i < |row| ==> (row[i] <==> i < n)
    ensures CountLit(row) == n
  {
    if row != [] {
      CountLitPrefix(row[1..], if n > 0 then n - 1 else 0);
    }
  }

  /** As written: the submit-feedback button is shown unless the raw route
      id is the reserved self id. */
  function ShowFeedbackButton(id: Option<string>): (shown: bool)
    ensures shown <==> id != Some(SelfId)
  {
    id != Some(SelfId)
  }

  /** Corrected: feedback may be submitted exactly when the profile shown is
      not the member's own. */
  function CanSubmitFeedback(me: UserProfile, users: seq<UserProfile>, id: Option<string>): (can: bool)
    ensures id == Some(SelfId) || id == None ==> !can
    ensures (id.Some? && id.value != SelfId && id.value != me.id &&
             exists v :: v in users && v.id == id.value) ==> can
    ensures id.Some? && (forall v :: v in users ==> v.id != id.value) ==> !can
    ensures id.Some? && id.value == me.id ==> !can
  {
    ResolveProfile(me, users, id).id != me.id
  }

  /** On the `/me` route, which carries no id, the button as written is shown
      although the page is the member's own profile. */
  lemma SelfRouteShowsButton(me: UserProfile, users: seq<UserProfile>)
    ensures ResolveProfile(me, users, None) == me
    ensures ShowFeedbackButton(None)
    ensures !CanSubmitFeedback(me, users, None)
  {
  }

  /** On a route whose id no member has, the self profile is shown and the
      button as written is shown too. */
  lemma UnknownRouteShowsButton(me: UserProfile, users: seq<UserProfile>, s: string)
    requires s != SelfId
    requires forall v :: v in users ==> v.id != s
    ensures ResolveProfile(me, users, Some(s)) == me
    ensures ShowFeedbackButton(Some(s))
    ensures !CanSubmitFeedback(me, users, Some(s))
  {
  }

  /** The written rule and the corrected rule disagree exactly on routes
      that are not the reserved id yet show the member's own profile. */
  lemma ButtonRulesDiffer(me: UserProfile, users: seq<UserProfile>, id: Option<string>)
    ensures ShowFeedbackButton(id) != CanSubmitFeedback(me, users, id) <==>
      id != Some(SelfId) && ResolveProfile(me, users, id).id == me.id
  {
  }

  /** What the profile page derives from its route. */
  datatype ProfileView = ProfileView(
    user: UserProfile,
    level: int,
    showsButton: bool,
    canSubmitFeedback: bool,
    domainOptions: seq<DomainType>,
    chart: seq<ChartPoint>,
    starRows: seq<seq<bool>>)

  /** The profile page for a route: the resolved member, their level, the
      button rule as written, the corrected feedback rule, the form's domain
      options (the member's active domains, in order), their radar chart and
      one star row per review. */
  function View(me: UserProfile, users: seq<UserProfile>, id: Option<string>,
                translations: map<string, string>): (v: ProfileView)
    ensures v.user == ResolveProfile(me, users, id)
    ensures v.level * 10 <= v.user.trustScore < v.level * 10 + 10
    ensures v.showsButton <==> id != Some(SelfId)
    ensures v.canSubmitFeedback <==> v.user.id != me.id
    ensures v.domainOptions == v.user.activeDomains
    ensures v.chart == ChartData(v.user.reviews, translations)
    ensures |v.chart| == 6
    ensures |v.starRows| == |v.user.reviews|
    ensures forall i :: 0 <= i < |v.starRows| ==> v.starRows[i] == Stars(v.user.reviews[i].rating)
  {
    var user := ResolveProfile(me, users, id);
    ProfileView(
      user,
      Level(user.trustScore),
      ShowFeedbackButton(id),
      CanSubmitFeedback(me, users, id),
      user.activeDomains,
      ChartData(user.reviews, translations),
      seq(|user.reviews|, i requires 0 <= i < |user.reviews| => Stars(user.reviews[i].rating)))
  }
}
