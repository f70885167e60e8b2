# Peer-feedback mirror: the derivations behind the network and profile views

This project is a Dafny model of the logic in a small peer-review web front end. Members rate one another in six life domains. The front end derives a few things from the in-memory directory of members and their reviews:

- **Data model** (`types.dfy`): the feedback tag and domain enumerations, reviews, user profiles (badges, top skills and weekly count are optional) and micro-posts.
- **Radar chart data** (`radar_chart.dfy`): one point per domain, in declaration order. Each point holds the mean rating of the profile's reviews in that domain, or 0 when there are none. Its label is the translated domain name, or the raw name when no translation exists.
- **Network view** (`feed.dfy`):
  - *featured*: the first three members with a trust score above 90, in directory order;
  - *trending*: every member, most weekly reviews first, with ties in directory order;
  - *search*: the members whose lower-cased name or username contains the lower-cased term.
  Trending is specified by a stable insertion sort on sequences (`Trending`). It is implemented in place on an array (`SortByActivity`), the way the page sorts a spread copy of the directory (`TrendingProfiles`).
- **Profile page** (`profile.dfy`): which profile a route shows, the level badge, the star row of each review, whether the submit-feedback button shows, and which domains the feedback form offers.
- **Growth insight** (`insight.dfy`): only the local decisions. These are the empty-list guard and the fallback strings. The service's answer is a parameter.
- **Seed directory** (`seed_data.dfy`): the four hard-coded members and two micro-posts, with concrete consequences proved about them:
  - featured is Alex, Sarah, Elena;
  - trending is Marcus, Alex, Sarah, Elena;
  - searching "sarah" finds only Sarah;
  - the self profile's chart reads 5, 4, 0, 5, 3, 0.

`seqs.dfy` holds the generic `filter`, `slice` and subsequence vocabulary. `js_string.dfy` holds `toLowerCase` and `includes`.

Where the written specification of the system and the code disagree, the model follows the code:

- The specification describes a persisted local data store, a per-domain leaderboard with a podium arrangement, and pagination. None of these occur in the modelled source files, so none is modelled.
- The specification gives micro-posts an author reference. The record in `types.ts` has none, so the model has none.

## Model

| member | source | states |
|---|---|---|
| Types.AllDomainsEnumeratesOnce | types.ts:8-15 | there are exactly six domains, each listed once, in the order Professional, Communication, Reliability, Leadership, Social, Dating, and their run-time strings differ |
| Types.AllTagsEnumeratesOnce | types.ts:2-6 | there are exactly three feedback tags, POSITIVE, NEUTRAL, CONSTRUCTIVE, each listed once with distinct strings |
| Types.DomainNameInjective | types.ts:8-15 | two domains carry the same run-time string only if they are the same domain |
| Types.Review | types.ts:17-24 | a review carries exactly one id, domain, rating, comment, tag and creation date |
| Types.UserProfile | types.ts:26-37 | a profile always has id, name, username, avatar, trust score, active domains and reviews; badges, top skills and the weekly count are optional |
| Types.Reaction | types.ts:43 | a reaction is a (type, count) pair |
| Types.MicroPost | types.ts:39-44 | a micro-post has an id, content, a display timestamp and a list of reactions |
| Seqs.Filter | App.tsx:125 | `filter` yields only values that pass and every value that passes, never more elements than it was given; occurrences and order are pinned by FilterMultiset and FilterIsSubsequence |
| Seqs.FilterMultiset | App.tsx:125 | `filter` keeps every occurrence of a passing value, as often as it occurs, and no occurrence of a failing one |
| Seqs.FilterIsSubsequence | App.tsx:125 | `filter` keeps the survivors in their input order |
| Seqs.Take | App.tsx:125 | `slice(0, n)` is the prefix of length `n`, or the whole list when it is shorter |
| JsString.Lower | App.tsx:128-129 | lower-casing keeps the length, maps each character independently and leaves no upper-case letter |
| JsString.LowerIdempotent | App.tsx:128-129 | lower-casing twice is lower-casing once |
| JsString.Contains | App.tsx:128-129 | `includes`: the term matches at the start or somewhere after it |
| JsString.ContainsIffOccurs | App.tsx:128-129 | `includes` holds exactly when the term occurs at some index of the string |
| JsString.ContainsEmpty | App.tsx:128-129 | every string includes the empty term |
| RadarChart.DomainReviewsMeasure | components/RadarChart.tsx:18-20 | the reviews filtered to a domain number as many, and total as much, as the reviews about that domain |
| RadarChart.DomainAverage | components/RadarChart.tsx:18-21 | a domain without reviews averages 0; otherwise the average is the domain's total rating over its number of reviews |
| RadarChart.Label | components/RadarChart.tsx:24 | the label is never empty: the domain's translation when there is a non-empty one, otherwise the domain's own name |
| RadarChart.ChartData | components/RadarChart.tsx:16-31 | exactly six points, point `i` is domain `i` of the enumeration, carrying that domain's label, its average and the full mark 5 |
| RadarChart.OtherDomainIgnored | components/RadarChart.tsx:18 | a review about another domain, wherever it stands in the list, does not change a domain's average |
| RadarChart.AddReviewChangesOnlyItsDomain | components/RadarChart.tsx:17-21 | one more review leaves every other domain's point unchanged and makes its own domain's average (total + rating) / (count + 1) |
| RadarChart.SumInBounds | components/RadarChart.tsx:20 | with ratings from 1 to 5, a domain's total lies between its count and five times its count |
| RadarChart.AverageWithinScale | components/RadarChart.tsx:19-29 | with ratings from 1 to 5, every average lies in [0, 5] and a non-zero average is at least 1 |
| Feed.Featured | App.tsx:125 | at most three members, each from the directory with trust above 90; fewer than three only when every qualifying member is included |
| Feed.TakeFilterIsFirstQualifying | App.tsx:125 | filtering and then slicing to `n` picks the first `n` qualifying members in directory order |
| Feed.FeaturedIsFirstThree | App.tsx:125 | featured is exactly the first three qualifying members |
| Feed.FeaturedKeepsOrder | App.tsx:125 | featured is a subsequence of the directory |
| Feed.Search | App.tsx:127-130 | a member is in the result exactly when it is in the directory and its name or username matches |
| Feed.Matches | App.tsx:128-129 | a member matches when its lower-cased name or lower-cased username includes the lower-cased term |
| Feed.MatchesIffOccurs | App.tsx:128-129 | a member matches exactly when the lower-cased term occurs in its lower-cased name or username |
| Feed.SearchKeepsOccurrences | App.tsx:127-130 | each matching directory entry appears in the result as often as in the directory; non-matching entries never appear |
| Feed.SearchKeepsOrder | App.tsx:127-130 | search results are a subsequence of the directory |
| Feed.SearchEmptyTermKeepsAll | App.tsx:127-130 | the empty term returns the whole directory unchanged |
| Feed.SearchIgnoresTermCase | App.tsx:127-130 | searching for a term and for its lower-cased form give the same result |
| Feed.WeeklyCount | App.tsx:126 | `weeklyReviews \|\| 0`: an absent weekly count ranks as 0 |
| Feed.Trending | App.tsx:126 | the trending order, a stable insertion sort by descending weekly count; its properties are the lemmas below |
| Feed.InsertKeepsMembers | App.tsx:126 | inserting a member adds exactly that member to the multiset of members |
| Feed.InsertKeepsSorted | App.tsx:126 | inserting into a list sorted by descending weekly count keeps it sorted |
| Feed.InsertKeepsStable | App.tsx:126 | inserting appends the member after all members of its own count and leaves other counts' members unchanged |
| Feed.TrendingSortedPermutation | App.tsx:126 | trending is sorted by descending weekly count and holds the same members as the directory |
| Feed.TrendingStableAt | App.tsx:126 | for each weekly count, trending lists the members with that count in directory order |
| Feed.TrendingSortedStable | App.tsx:126 | trending is sorted, stable and a permutation of the directory |
| Feed.TrendingIsPermutation | App.tsx:126 | trending is a permutation of the directory of the same length, so nothing is truncated |
| Feed.TrendingIsSorted | App.tsx:126 | no member in trending precedes one with a larger weekly count (an absent count ranks as 0) |
| Feed.TrendingIsStable | App.tsx:126 | members with equal weekly counts keep their directory order |
| Feed.SortedStableUnique | App.tsx:126 | two sorted lists with the same members for every weekly count are equal |
| Feed.TrendingUnique | App.tsx:126 | any sorted, stable reordering of the directory is trending |
| Feed.InsertAt | App.tsx:126 | inserting into a sorted list splices the member in after the last member ranked at least as high |
| Feed.SiftLeft | App.tsx:126 | the in-place step moves the element left past smaller counts, shifts them right and reports where it lands |
| Feed.InsertNext | App.tsx:126 | with the prefix sorted, one in-place step makes the prefix plus one element equal to the functional insertion |
| Feed.SortByActivity | App.tsx:126 | sorting the array in place leaves it holding trending of its old contents |
| Feed.TrendingProfiles | App.tsx:126 | the result is a fresh array holding trending of the directory; the directory array is unchanged |
| Profile.FindById | App.tsx:290 | none exactly when no member has the id; otherwise the first member with that id |
| Profile.ResolveProfile | App.tsx:290 | the reserved id "me" or no id gives the self profile; any other known id gives the first member with that id; an unknown id gives the self profile |
| Profile.Level | App.tsx:319 | the level is the floor of trust / 10: `10 * level <= trust < 10 * level + 10` |
| Profile.LevelRange | App.tsx:319 | trust from 0 to 100 gives a level from 0 to 10 |
| Profile.LevelMonotone | App.tsx:319 | a higher trust score never shows a lower level |
| Profile.Stars | App.tsx:402-403 | a row of five stars in which star `k` is lit exactly when `k <= rating` |
| Profile.LitStarsMatchRating | App.tsx:402-403 | the number of lit stars is the rating clamped to 0..5 |
| Profile.ShowFeedbackButton | App.tsx:343 | the button shows exactly when the raw route id is not "me" (as written) |
| Profile.CanSubmitFeedback | App.tsx:343 | feedback is refused on the reserved id, on the id-less route, on an unknown id and on one's own id; it is offered for a known member other than oneself |
| Profile.SelfRouteShowsButton | App.tsx:343 | on the route without an id, the self profile is shown, yet the button as written shows |
| Profile.UnknownRouteShowsButton | App.tsx:290-343 | on a route whose id no member has, the self profile is shown, yet the button as written shows |
| Profile.ButtonRulesDiffer | App.tsx:343 | the written and the corrected rules disagree exactly when the route id is not "me" yet the profile shown is one's own |
| Profile.View | App.tsx:290-434 | the page shows the resolved profile, its level, the button as written, the corrected feedback rule, its active domains in order as form options, its full chart and one star row per review |
| Insight.MirrorInsight | services/geminiService.ts:7-28 | never empty: the fixed message for no reviews, the fixed foggy message on a service error, the service's text unchanged when it is non-empty, and the fixed failure message when the text is empty or missing |
| Insight.EmptyIgnoresService | services/geminiService.ts:8 | with no reviews the result does not depend on the service |
| SeedData.Users | App.tsx:32-70 | the seed directory: the self profile followed by Sarah, Marcus and Elena, with their trust scores and weekly counts |
| SeedData.MicroPosts | App.tsx:72-75 | the two seed micro-posts with their content, display timestamps and reaction counts |
| SeedData.SeedFeatured | App.tsx:125 | in the seed directory, featured is Alex (98), Sarah (94), Elena (91); Marcus (89) is left out |
| SeedData.SeedTrending | App.tsx:126 | in the seed directory, trending is Marcus (15), Alex (12), Sarah (8), Elena (5) |
| SeedData.SeedSearchSarah | App.tsx:127-130 | in the seed directory, searching "sarah" finds only Sarah Chen |
| SeedData.SeedChart | components/RadarChart.tsx:17-21 | the seed self profile averages 5, 4, 0, 5, 3, 0 across the six domains |
| SeedData.SeedRoutes | App.tsx:290-343 | `/profile/u3` shows Marcus at level 8 with the button; an unknown id shows the self profile at level 9 with the button as written but no right to submit; the reserved id hides the button |

## Left out

- Rendering, styling, the chart library and the router are not modelled. Only the id-to-profile rule of routing is.
- The clipboard copy, its timer, the random trending percentages, the hard-coded statistics and the loading flags are not modelled. They are side effects or randomness that no derivation depends on.
- The prompt, the network call and the API key of the insight service are not modelled. The service's outcome is a parameter of `Insight.MirrorInsight`.
- The asynchronous insight fetch and the component state (modal open, insight text, copy status) are not modelled. They are UI state.
- The feedback form's submit is not modelled. It only closes the modal and stores nothing.
- The translation tables are not part of this model. The chart takes the domain translations as a map parameter.
- `JsString.Lower` lowercases ASCII letters only. Unicode case mapping is not modelled.
- `RadarChart.DomainAverage` computes the mean in exact `real` arithmetic. Floating-point rounding is not modelled. Ratings are integers, as the form offers, so fractional ratings are not modelled either.
- `Insight.MirrorInsight` does not model the guard's null or undefined review list. A Dafny sequence is always present, so only the empty list is.
- The persisted local store, the domain leaderboard, the podium and pagination are not modelled. The specification describes them, but the modelled source has none of them.
- The micro-post author reference is not modelled. It is absent from the `MicroPost` record.
- `Types.UserProfile` and `Types.Reaction` hold the trust score, the weekly count and the reaction count as integers, although the records type them as JavaScript numbers. A fractional trust score such as 90.5, which would be featured and show level 9, cannot be expressed in the model.
- A reaction's `type` field is named `kind` in `Types.Reaction`, because `type` is a keyword.

## Findings

| source | as written | input that shows it | evidently intended | confidence | as-written member | corrected member |
|---|---|---|---|---|---|---|
| App.tsx:343 | the submit-feedback button shows whenever the raw route id is not "me" | the `/me` route (App.tsx:480) has no id parameter, so the id is undefined; likewise `/profile/u9`, an id no member has. Either page shows the self profile, yet the button shows, inviting the member to review themselves | the button shows only when the profile shown is not the member's own | medium, not executed | Profile.ShowFeedbackButton (exhibited by Profile.SelfRouteShowsButton and Profile.UnknownRouteShowsButton) | Profile.CanSubmitFeedback (related to the written rule by Profile.ButtonRulesDiffer; both rules are fields of Profile.View) |
