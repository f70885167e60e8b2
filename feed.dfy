/** The three derivations of the network directory view: featured members
    (high trust), trending members (most weekly reviews first) and the
    name/handle search. */
module Feed {
  import opened Types
  import opened Seqs
  import opened JsString

  // ---------------------------------------------------------------------
  // Featured members
  // ---------------------------------------------------------------------

  /** A member is featured only with a trust score strictly above this. */
  const FeaturedThreshold: int := 90

  /** At most this many members are featured. */
  const FeaturedLimit: nat := 3

  function HighTrust(): UserProfile -> bool
  {
    (u: UserProfile) => u.trustScore > FeaturedThreshold
  }

  /** `users.filter(u => u.trustScore > 90).slice(0, 3)`: at most three
      members, each above the threshold, and no qualifying member is left
      out unless three were already taken. */
  function Featured(users: seq<UserProfile>): (r: seq<UserProfile>)
    ensures |r| <= FeaturedLimit
    ensures forall u :: u in r ==> u in users && u.trustScore > FeaturedThreshold
    ensures |r| < FeaturedLimit ==>
      forall u :: u in users && u.trustScore > FeaturedThreshold ==> u in r
  {
    Take(Filter(users, HighTrust()), FeaturedLimit)
  }

  /** One pass over the members that takes each qualifying one until `n`
      have been taken. */
  function FirstQualifying(users: seq<UserProfile>, n: nat): seq<UserProfile>
  {
    if users == [] || n == 0 then []
    else if users[0].trustScore > FeaturedThreshold then [users[0]] + FirstQualifying(users[1..], n - 1)
    else FirstQualifying(users[1..], n)
  }

  /** Filtering then slicing is the same as a single scan that stops after
      `n` qualifying members. */
  lemma {:induction false} TakeFilterIsFirstQualifying(users: seq<UserProfile>, n: nat)
    ensures Take(Filter(users, HighTrust()), n) == FirstQualifying(users, n)
  {
    if users != [] && n > 0 {
      TakeFilterIsFirstQualifying(users[1..], if users[0].trustScore > FeaturedThreshold then n - 1 else n);
      var rest := Filter(users[1..], HighTrust());
      if users[0].trustScore > FeaturedThreshold {
        assert Filter(users, HighTrust()) == [users[0]] + rest;
        assert Take([users[0]] + rest, n) == [users[0]] + Take(rest, n - 1);
      } else {
        assert Filter(users, HighTrust()) == rest;
      }
    }
  }

  /** Featured members are the first three qualifying members of a scan. */
  lemma FeaturedIsFirstThree(users: seq<UserProfile>)
    ensures Featured(users) == FirstQualifying(users, FeaturedLimit)
  {
    TakeFilterIsFirstQualifying(users, FeaturedLimit);
  }

  /** Featured members appear in the directory's own order. */
  lemma FeaturedKeepsOrder(users: seq<UserProfile>)
    ensures IsSubsequence(Featured(users), users)
  {
    var high := Filter(users, HighTrust());
    FilterIsSubsequence(users, HighTrust());
    PrefixIsSubsequence(high, users, |Featured(users)|);
  }

  // ---------------------------------------------------------------------
  // Directory search
  // ---------------------------------------------------------------------

  /** The name or the handle contains the term, ignoring case. */
  predicate Matches(u: UserProfile, term: string)
  {
    Contains(Lower(u.name), Lower(term)) || Contains(Lower(u.username), Lower(term))
  }

  function MatchesTerm(term: string): UserProfile -> bool
  {
    (u: UserProfile) => Matches(u, term)
  }

  /** The members whose name or handle contains the search term as a
      case-insensitive substring, in directory order. */
  function Search(users: seq<UserProfile>, term: string): (r: seq<UserProfile>)
    ensures forall u :: u in r <==> u in users && Matches(u, term)
  {
    Filter(users, MatchesTerm(term))
  }

  /** A member matches iff the lower-cased term occurs, at some position, in
      the lower-cased name or handle. */
  lemma MatchesIffOccurs(u: UserProfile, term: string)
    ensures Matches(u, term) <==>
      (exists i :: OccursAt(Lower(u.name), Lower(term), i)) ||
      (exists i :: OccursAt(Lower(u.username), Lower(term), i))
  {
    ContainsIffOccurs(Lower(u.name), Lower(term));
    ContainsIffOccurs(Lower(u.username), Lower(term));
  }

  /** Search results keep the directory's order. */
  lemma SearchKeepsOrder(users: seq<UserProfile>, term: string)
    ensures IsSubsequence(Search(users, term), users)
  {
    FilterIsSubsequence(users, MatchesTerm(term));
  }

  /** Every matching entry of the directory is listed as often as it occurs
      there, and no other entry is. */
  lemma SearchKeepsOccurrences(users: seq<UserProfile>, term: string)
    ensures forall u :: multiset(Search(users, term))[u] == if Matches(u, term) then multiset(users)[u] else 0
  {
    FilterMultiset(users, MatchesTerm(term));
  }

  /** The empty term lists the whole directory, unchanged. */
  lemma SearchEmptyTermKeepsAll(users: seq<UserProfile>)
    ensures Search(users, "") == users
  {
    forall u | u in users
      ensures MatchesTerm("")(u)
    {
      ContainsEmpty(Lower(u.name));
    }
    FilterKeepsAll(users, MatchesTerm(""));
  }

  /** Searching is insensitive to the case of the term. */
  lemma SearchIgnoresTermCase(users: seq<UserProfile>, term: string)
    ensures Search(users, Lower(term)) == Search(users, term)
  {
    LowerIdempotent(term);
    FilterCongruent(users, MatchesTerm(Lower(term)), MatchesTerm(term));
  }

  // ---------------------------------------------------------------------
  // Trending members
  // ---------------------------------------------------------------------

  /** `u.weeklyReviews || 0`: an absent weekly count ranks as zero. */
  function WeeklyCount(u: UserProfile): int
  {
    match u.weeklyReviews
    case None => 0
    case Some(n) => n
  }

  /** No member precedes one with a larger weekly count. */
  ghost predicate SortedByActivity(s: seq<UserProfile>)
  {
    forall i, j :: 0 <= i < j < |s| ==> WeeklyCount(s[i]) >= WeeklyCount(s[j])
  }

  function HasCount(k: int): UserProfile -> bool
  {
    (u: UserProfile) => WeeklyCount(u) == k
  }

  /** The members with weekly count `k`, in the order `s` lists them. */
  function WithCount(s: seq<UserProfile>, k: int): seq<UserProfile>
  {
    Filter(s, HasCount(k))
  }

  /** `t` lists the members of `s` in an order that keeps, for every weekly
      count, the relative order those members have in `s` (a stable order). */
  ghost predicate StableReorder(t: seq<UserProfile>, s: seq<UserProfile>)
  {
    forall k :: WithCount(t, k) == WithCount(s, k)
  }

  /** Insert `u` into `sorted` after every member whose count is at least
      its own. */
  function InsertByActivity(sorted: seq<UserProfile>, u: UserProfile): seq<UserProfile>
  {
    if sorted == [] then [u]
    else if WeeklyCount(sorted[0]) >= WeeklyCount(u) then [sorted[0]] + InsertByActivity(sorted[1..], u)
    else [u] + sorted
  }

  /** The trending list: every member, most weekly reviews first, members
      with equal counts in directory order (the comparator
      `(b.weeklyReviews || 0) - (a.weeklyReviews || 0)` under a stable sort). */
  function Trending(users: seq<UserProfile>): seq<UserProfile>
  {
    if users == [] then []
    else InsertByActivity(Trending(users[..|users| - 1]), users[|users| - 1])
  }

  lemma {:induction false} InsertKeepsMembers(sorted: seq<UserProfile>, u: UserProfile)
    ensures multiset(InsertByActivity(sorted, u)) == multiset(sorted) + multiset{u}
  {
    if sorted != [] && WeeklyCount(sorted[0]) >= WeeklyCount(u) {
      InsertKeepsMembers(sorted[1..], u);
      assert sorted == [sorted[0]] + sorted[1..];
    }
  }

  lemma {:induction false} InsertKeepsSorted(sorted: seq<UserProfile>, u: UserProfile)
    requires SortedByActivity(sorted)
    ensures SortedByActivity(InsertByActivity(sorted, u))
  {
    if sorted == [] {
    } else if WeeklyCount(sorted[0]) >= WeeklyCount(u) {
      InsertKeepsSorted(sorted[1..], u);
      InsertKeepsMembers(sorted[1..], u);
      var rest := InsertByActivity(sorted[1..], u);
      forall x | x in rest
        ensures WeeklyCount(sorted[0]) >= WeeklyCount(x)
      {
        assert x in multiset(rest);
        if x != u {
          assert x in multiset(sorted[1..]);
        }
      }
      ConsSorted(sorted[0], rest);
    } else {
      forall x | x in sorted
        ensures WeeklyCount(u) >= WeeklyCount(x)
      {
        var j :| 0 <= j < |sorted| && sorted[j] == x;
        assert WeeklyCount(sorted[0]) >= WeeklyCount(sorted[j]);
      }
      ConsSorted(u, sorted);
    }
  }

  /** A member ranked at least as high as everyone in a sorted list can lead
      it. */
  lemma ConsSorted(x: UserProfile, rest: seq<UserProfile>)
    requires SortedByActivity(rest)
    requires forall y :: y in rest ==> WeeklyCount(x) >= WeeklyCount(y)
    ensures SortedByActivity([x] + rest)
  {
    var r := [x] + rest;
    forall i, j | 0 <= i < j < |r|
      ensures WeeklyCount(r[i]) >= WeeklyCount(r[j])
    {
      assert r[j] == rest[j - 1];
      if i == 0 {
        assert rest[j - 1] in rest;
      } else {
        assert r[i] == rest[i - 1];
      }
    }
  }

  lemma WithCountCons(x: UserProfile, s: seq<UserProfile>, k: int)
    ensures WithCount([x] + s, k) == (if WeeklyCount(x) == k then [x] else []) + WithCount(s, k)
  {
    assert ([x] + s)[0] == x;
    assert ([x] + s)[1..] == s;
  }

  /** The members with the inserted member's count gain it at the end; every
      other count's members are untouched. */
  lemma {:induction false} InsertKeepsStable(sorted: seq<UserProfile>, u: UserProfile, k: int)
    requires SortedByActivity(sorted)
    ensures WithCount(InsertByActivity(sorted, u), k) ==
      WithCount(sorted, k) + (if WeeklyCount(u) == k then [u] else [])
  {
    if sorted == [] {
      WithCountCons(u, [], k);
      assert [u] + [] == [u];
    } else {
      assert sorted == [sorted[0]] + sorted[1..];
      WithCountCons(sorted[0], sorted[1..], k);
      if WeeklyCount(sorted[0]) >= WeeklyCount(u) {
        InsertKeepsStable(sorted[1..], u, k);
        WithCountCons(sorted[0], InsertByActivity(sorted[1..], u), k);
      } else {
        WithCountCons(u, sorted, k);
        if WeeklyCount(u) == k {
          NoneAboveFirst(sorted, k);
        }
      }
    }
  }

  /** In a sorted list, no member has a count above the first member's. */
  lemma NoneAboveFirst(sorted: seq<UserProfile>, k: int)
    requires SortedByActivity(sorted)
    requires sorted != [] && WeeklyCount(sorted[0]) < k
    ensures WithCount(sorted, k) == []
  {
    forall x | x in sorted
      ensures !HasCount(k)(x)
    {
      var j :| 0 <= j < |sorted| && sorted[j] == x;
      assert WeeklyCount(sorted[0]) >= WeeklyCount(sorted[j]);
    }
    FilterKeepsNone(sorted, HasCount(k));
  }

  /** Every member is among the members with its own weekly count. */
  lemma WithCountOwn(s: seq<UserProfile>, i: int)
    requires 0 <= i < |s|
    ensures s[i] in WithCount(s, WeeklyCount(s[i]))
  {
  }

  /** Trending is sorted by activity and lists the same members. */
  lemma {:induction false} TrendingSortedPermutation(users: seq<UserProfile>)
    ensures SortedByActivity(Trending(users))
    ensures multiset(Trending(users)) == multiset(users)
    decreases |users|
  {
    if users != [] {
      var init, last := users[..|users| - 1], users[|users| - 1];
      assert users == init + [last];
      TrendingSortedPermutation(init);
      InsertKeepsSorted(Trending(init), last);
      InsertKeepsMembers(Trending(init), last);
    }
  }

  /** Trending keeps, for every weekly count, the directory order of the
      members with that count. */
  lemma {:induction false} TrendingStableAt(users: seq<UserProfile>, k: int)
    ensures WithCount(Trending(users), k) == WithCount(users, k)
    decreases |users|
  {
    if users != [] {
      var init, last := users[..|users| - 1], users[|users| - 1];
      assert users == init + [last];
      TrendingStableAt(init, k);
      TrendingSortedPermutation(init);
      InsertKeepsStable(Trending(init), last, k);
      FilterAppend(init, [last], HasCount(k));
      WithCountCons(last, [], k);
      assert [last] + [] == [last];
    }
  }

  lemma TrendingSortedStable(users: seq<UserProfile>)
    ensures SortedByActivity(Trending(users))
    ensures StableReorder(Trending(users), users)
    ensures multiset(Trending(users)) == multiset(users)
  {
    TrendingSortedPermutation(users);
    forall k
      ensures WithCount(Trending(users), k) == WithCount(users, k)
    {
      TrendingStableAt(users, k);
    }
  }

  /** Trending neither drops nor duplicates anyone: it is a permutation of
      the directory, of the same length. */
  lemma TrendingIsPermutation(users: seq<UserProfile>)
    ensures multiset(Trending(users)) == multiset(users)
    ensures |Trending(users)| == |users|
  {
    TrendingSortedStable(users);
    assert |multiset(Trending(users))| == |multiset(users)|;
  }

  /** Trending lists larger weekly counts first. */
  lemma TrendingIsSorted(users: seq<UserProfile>)
    ensures forall i, j :: 0 <= i < j < |Trending(users)| ==>
      WeeklyCount(Trending(users)[i]) >= WeeklyCount(Trending(users)[j])
  {
    TrendingSortedStable(users);
  }

  /** Members with equal weekly counts keep their directory order. */
  lemma TrendingIsStable(users: seq<UserProfile>, k: int)
    ensures WithCount(Trending(users), k) == WithCount(users, k)
  {
    TrendingSortedStable(users);
  }

  /** A list sorted by activity is fixed by which members carry each count:
      two sorted, stable reorderings of the same members are equal. */
  lemma {:induction false} SortedStableUnique(a: seq<UserProfile>, b: seq<UserProfile>)
    requires SortedByActivity(a) && SortedByActivity(b)
    requires forall k :: WithCount(a, k) == WithCount(b, k)
    ensures a == b
    decreases |a| + |b|
  {
    if a == [] || b == [] {
      if a != [] {
        WithCountOwn(a, 0);
        assert false;
      } else if b != [] {
        WithCountOwn(b, 0);
        assert false;
      }
    } else {
      var ka, kb := WeeklyCount(a[0]), WeeklyCount(b[0]);
      HeadCountsAgree(a, b);
      assert a == [a[0]] + a[1..];
      assert b == [b[0]] + b[1..];
      forall k
        ensures WithCount(a[1..], k) == WithCount(b[1..], k)
      {
        WithCountCons(a[0], a[1..], k);
        WithCountCons(b[0], b[1..], k);
        var ta, tb := WithCount(a[1..], k), WithCount(b[1..], k);
        assert WithCount(a, k) == WithCount(b, k);
        if k == ka {
          assert [a[0]] + ta == [b[0]] + tb;
          assert ([a[0]] + ta)[1..] == ta;
          assert ([b[0]] + tb)[1..] == tb;
        } else {
          assert WithCount(a, k) == [] + ta == ta;
          assert WithCount(b, k) == [] + tb == tb;
        }
      }
      WithCountCons(a[0], a[1..], ka);
      WithCountCons(b[0], b[1..], ka);
      assert ([a[0]] + WithCount(a[1..], ka))[0] == a[0];
      assert ([b[0]] + WithCount(b[1..], ka))[0] == b[0];
      SortedStableUnique(a[1..], b[1..]);
    }
  }

  /** Two non-empty sorted lists with the same members per count start with
      members of the same count. */
  lemma HeadCountsAgree(a: seq<UserProfile>, b: seq<UserProfile>)
    requires a != [] && b != []
    requires SortedByActivity(a) && SortedByActivity(b)
    requires forall k :: WithCount(a, k) == WithCount(b, k)
    ensures WeeklyCount(a[0]) == WeeklyCount(b[0])
  {
    var ka, kb := WeeklyCount(a[0]), WeeklyCount(b[0]);
    WithCountOwn(a, 0);
    WithCountOwn(b, 0);
    assert a[0] in WithCount(b, ka);
    var ia :| 0 <= ia < |b| && b[ia] == a[0];
    assert kb >= WeeklyCount(b[ia]);
    assert b[0] in WithCount(a, kb);
    var ib :| 0 <= ib < |a| && a[ib] == b[0];
    assert ka >= WeeklyCount(a[ib]);
  }

  /** Trending is the only stable ordering of the directory by descending
      weekly count. */
  lemma TrendingUnique(users: seq<UserProfile>, t: seq<UserProfile>)
    requires SortedByActivity(t)
    requires StableReorder(t, users)
    ensures t == Trending(users)
  {
    TrendingSortedStable(users);
    SortedStableUnique(t, Trending(users));
  }

  /** Inserting into a sorted list lands after the last member whose count is
      at least the new one's. */
  lemma {:induction false} InsertAt(sorted: seq<UserProfile>, u: UserProfile, j: nat)
    requires SortedByActivity(sorted)
    requires j <= |sorted|
    requires j == 0 || WeeklyCount(sorted[j - 1]) >= WeeklyCount(u)
    requires forall m :: j <= m < |sorted| ==> WeeklyCount(sorted[m]) < WeeklyCount(u)
    ensures InsertByActivity(sorted, u) == sorted[..j] + [u] + sorted[j..]
  {
    if j > 0 {
      assert WeeklyCount(sorted[0]) >= WeeklyCount(sorted[j - 1]);
      InsertAt(sorted[1..], u, j - 1);
      assert sorted[..j] == [sorted[0]] + sorted[1..][..j - 1];
      assert sorted[j..] == sorted[1..][j - 1..];
    } else if sorted != [] {
      assert sorted[..0] == [];
    }
  }

  /** Moves `a[i]` left past every member before it with a smaller weekly
      count, shifting those members one place right; returns where it lands. */
  method SiftLeft(a: array<UserProfile>, i: int) returns (j: int)
    requires 0 <= i < a.Length
    modifies a
    ensures 0 <= j <= i
    ensures a[j] == old(a[i])
    ensures forall m :: 0 <= m < j ==> a[m] == old(a[m])
    ensures forall m :: j < m <= i ==> a[m] == old(a[m - 1])
    ensures forall m :: i < m < a.Length ==> a[m] == old(a[m])
    ensures forall m :: j <= m < i ==> WeeklyCount(old(a[m])) < WeeklyCount(old(a[i]))
    ensures j == 0 || WeeklyCount(old(a[j - 1])) >= WeeklyCount(old(a[i]))
  {
    var u := a[i];
    j := i;
    while j > 0 && WeeklyCount(a[j - 1]) < WeeklyCount(u)
      invariant 0 <= j <= i
      invariant forall m :: 0 <= m < j ==> a[m] == old(a[m])
      invariant forall m :: j < m <= i ==> a[m] == old(a[m - 1])
      invariant forall m :: j <= m < i ==> WeeklyCount(old(a[m])) < WeeklyCount(u)
      invariant forall m :: i < m < a.Length ==> a[m] == old(a[m])
    {
      a[j] := a[j - 1];
      j := j - 1;
    }
    a[j] := u;
  }

  /** One step of the insertion sort: with `a[..i]` sorted, `a[i]` is
      inserted among them. */
  method InsertNext(a: array<UserProfile>, i: int)
    requires 0 <= i < a.Length
    requires SortedByActivity(a[..i])
    modifies a
    ensures a[..i + 1] == InsertByActivity(old(a[..i]), old(a[i]))
    ensures a[i + 1..] == old(a[i + 1..])
  {
    ghost var done := a[..i];
    ghost var u := a[i];
    var j := SiftLeft(a, i);
    InsertAt(done, u, j);
    ShiftedIsSplice(a[..i + 1], done, u, j);
    assert a[i + 1..] == old(a[i + 1..]);
  }

  /** A list that agrees with `done` before `j`, holds `u` at `j` and
      `done` shifted by one after `j` is `done` with `u` spliced in at `j`. */
  lemma ShiftedIsSplice(s: seq<UserProfile>, done: seq<UserProfile>, u: UserProfile, j: int)
    requires 0 <= j <= |done| && |s| == |done| + 1
    requires forall m :: 0 <= m < j ==> s[m] == done[m]
    requires s[j] == u
    requires forall m :: j < m < |s| ==> s[m] == done[m - 1]
    ensures s == done[..j] + [u] + done[j..]
  {
    var t := done[..j] + [u] + done[j..];
    forall m | 0 <= m < |s|
      ensures s[m] == t[m]
    {
      if m > j {
        assert t[m] == done[j..][m - j - 1];
      }
    }
  }

  /** `Array.prototype.sort` with the trending comparator, in place: a stable
      insertion sort, largest weekly count first. */
  method SortByActivity(a: array<UserProfile>)
    modifies a
    ensures a[..] == Trending(old(a[..]))
  {
    ghost var input := a[..];
    var i := 0;
    while i < a.Length
      invariant 0 <= i <= a.Length
      invariant a[..i] == Trending(input[..i])
      invariant a[i..] == input[i..]
    {
      TrendingSortedPermutation(input[..i]);
      assert a[i] == a[i..][0] == input[i..][0] == input[i];
      assert a[i + 1..] == a[i..][1..] == input[i..][1..] == input[i + 1..];
      InsertNext(a, i);
      assert input[..i + 1][..i] == input[..i];
      i := i + 1;
    }
    assert input[..a.Length] == input;
  }

  /** `[...users].sort(...)`: the trending list is sorted in a fresh copy,
      and the directory itself is left as it was. */
  method TrendingProfiles(users: array<UserProfile>) returns (r: array<UserProfile>)
    ensures fresh(r)
    ensures r[..] == Trending(users[..])
    ensures users[..] == old(users[..])
  {
    r := new UserProfile[users.Length](i requires 0 <= i < users.Length reads users => users[i]);
    assert r[..] == users[..];
    SortByActivity(r);
  }
}
