/** The data layer (dbService.ts): the Firestore "questions" and "users"
    collections and the localStorage entry that caches the signed-in user,
    held as in-memory state. Each collection is a sequence in insertion
    order; a question's `id` is its document id. */
module DbService {
  import opened Wrappers
  import opened Types
  import opened Sequences

  /** Length of the global ranking (`slice(0, 10)`). */
  const RankingSize: nat := 10

  /** Why a query that does not swallow its errors came back empty-handed. */
  datatype StoreError = Unreachable

  // ---------------------------------------------------------------- questions

  /** The `where` clauses the service filters documents by. */
  datatype Query =
    | ApprovedIn(theme: Theme)   // theme == t and approved == true
    | Unapproved                 // approved == false
    | OtherThan(id: string)      // every document but `id`

  /** Whether a document passes the `where` clauses of `query`: a theme query
      only ever returns approved questions of that theme, the moderation query
      only unapproved ones, so no question is in both at once. */
  function Matches(q: Question, query: Query): (b: bool)
    ensures query.ApprovedIn? && b ==> q.approved && q.theme == query.theme
    ensures query.Unapproved? ==> (b <==> !q.approved)
    ensures query.OtherThan? ==> (b <==> q.id != query.id)
  {
    match query
    case ApprovedIn(t) => q.theme == t && q.approved
    case Unapproved => !q.approved
    case OtherThan(id) => q.id != id
  }

  /** The documents of `qs` that satisfy `query`, in collection order. */
  function Select(qs: seq<Question>, query: Query): (r: seq<Question>)
    ensures forall q :: q in r <==> q in qs && Matches(q, query)
    ensures multiset(r) <= multiset(qs)
  {
    if qs == [] then []
    else
      assert qs == [qs[0]] + qs[1..];
      (if Matches(qs[0], query) then [qs[0]] else []) + Select(qs[1..], query)
  }

  /** Every matching document is kept as often as it occurs, every other
      one never, so equal entries are not merged. */
  lemma {:induction false} SelectCounts(qs: seq<Question>, query: Query, q: Question)
    ensures multiset(Select(qs, query))[q] == if Matches(q, query) then multiset(qs)[q] else 0
    decreases |qs|
  {
    if qs != [] {
      var head := if Matches(qs[0], query) then [qs[0]] else [];
      assert Select(qs, query) == head + Select(qs[1..], query);
      SelectCounts(qs[1..], query, q);
      assert qs == [qs[0]] + qs[1..];
      assert multiset(qs) == multiset{qs[0]} + multiset(qs[1..]);
    }
  }

  predicate HasId(qs: seq<Question>, id: string) {
    exists i :: 0 <= i < |qs| && qs[i].id == id
  }

  /** The collection after `updateDoc(doc(id), { approved: true })`. */
  function Approve(qs: seq<Question>, id: string): (r: seq<Question>)
    ensures |r| == |qs|
    ensures forall i :: 0 <= i < |qs| ==> r[i].id == qs[i].id && r[i].(approved := qs[i].approved) == qs[i]
    ensures forall i :: 0 <= i < |qs| ==> r[i].approved == (qs[i].approved || qs[i].id == id)
  {
    seq(|qs|, i requires 0 <= i < |qs| => if qs[i].id == id then qs[i].(approved := true) else qs[i])
  }

  /** Approving `id` takes exactly that question out of the moderation queue. */
  lemma ApprovalLeavesQueue(qs: seq<Question>, id: string)
    ensures forall q :: q in Select(Approve(qs, id), Unapproved) <==> q in Select(qs, Unapproved) && q.id != id
  {
    var a := Approve(qs, id);
    forall q | q in Select(a, Unapproved)
      ensures q in qs && q.id != id
    {
      var i :| 0 <= i < |a| && a[i] == q;
      assert a[i] == qs[i];
    }
    forall q | q in qs && !q.approved && q.id != id
      ensures q in a
    {
      var i :| 0 <= i < |qs| && qs[i] == q;
      assert a[i] == q;
    }
  }

  /** Approving `id` makes that question playable in its theme, and makes
      nothing else playable. */
  lemma ApprovalPublishes(qs: seq<Question>, id: string)
    ensures forall q :: q in qs && q.id == id ==> q.(approved := true) in Select(Approve(qs, id), ApprovedIn(q.theme))
    ensures forall q, t :: q in Select(Approve(qs, id), ApprovedIn(t)) ==> q in Select(qs, ApprovedIn(t)) || q.id == id
  {
    var a := Approve(qs, id);
    forall q | q in qs && q.id == id
      ensures q.(approved := true) in a
    {
      var i :| 0 <= i < |qs| && qs[i] == q;
      assert a[i] == q.(approved := true);
    }
    forall q | q in a && q.id != id
      ensures q in qs
    {
      var i :| 0 <= i < |a| && a[i] == q;
      assert a[i] == qs[i];
    }
  }

  // ------------------------------------------------------------------ scores

  /** `scores.reduce((acc, curr) => acc + curr.points, 0)`, folded from the left. */
  function Total(scores: seq<ScoreEntry>): (t: int)
    ensures scores == [] ==> t == 0
  {
    if scores == [] then 0 else Total(scores[..|scores| - 1]) + scores[|scores| - 1].points
  }

  /** A user's total; a profile without `scores` is one whose history is empty. */
  function Points(u: UserProfile): (p: int)
    ensures u.scores == [] ==> p == 0
  {
    Total(u.scores)
  }

  /** A history without negative records has a non-negative total. */
  lemma {:induction false} TotalNonNegative(scores: seq<ScoreEntry>)
    requires forall i :: 0 <= i < |scores| ==> scores[i].points >= 0
    ensures Total(scores) >= 0
    decreases |scores|
  {
    if scores != [] {
      TotalNonNegative(scores[..|scores| - 1]);
    }
  }

  /** The total does not depend on how the history is split. */
  lemma {:induction false} TotalConcat(a: seq<ScoreEntry>, b: seq<ScoreEntry>)
    ensures Total(a + b) == Total(a) + Total(b)
    decreases |b|
  {
    if b == [] {
      assert a + b == a;
    } else {
      var b' := b[..|b| - 1];
      assert (a + b)[..|a + b| - 1] == a + b';
      TotalConcat(a, b');
    }
  }

  predicate UniqueUids(users: seq<UserProfile>) {
    forall i, j :: 0 <= i < j < |users| ==> users[i].uid != users[j].uid
  }

  /** `getDoc(doc(firestore, "users", uid))`: where the profile with that uid sits. */
  function FindUser(users: seq<UserProfile>, uid: string): (r: Option<nat>)
    ensures r.None? <==> forall i :: 0 <= i < |users| ==> users[i].uid != uid
    ensures r.Some? ==> r.value < |users| && users[r.value].uid == uid
  {
    if users == [] then None
    else if users[0].uid == uid then Some(0)
    else match FindUser(users[1..], uid)
      case None => None
      case Some(k) => Some(k + 1)
  }

  /** The users collection after `saveScore` appends `entry` for `uid`. */
  function AppendScore(users: seq<UserProfile>, uid: string, entry: ScoreEntry): (r: seq<UserProfile>)
    ensures |r| == |users|
    ensures forall i :: 0 <= i < |users| && users[i].uid != uid ==> r[i] == users[i]
    ensures UniqueUids(users) ==>
      forall i :: 0 <= i < |users| && users[i].uid == uid ==> r[i] == users[i].(scores := users[i].scores + [entry])
    ensures UniqueUids(users) ==> UniqueUids(r)
  {
    match FindUser(users, uid)
    case None => users
    case Some(k) => users[k := users[k].(scores := users[k].scores + [entry])]
  }

  /** The cached user after `saveScore(uid, …)` appended `entry` to the stored
      `users`: when the cache holds that uid and the profile is stored, its
      history becomes the stored new history; otherwise the cache is kept. */
  function CachedAfterSave(users: seq<UserProfile>, session: Option<UserProfile>, uid: string, entry: ScoreEntry): (c: Option<UserProfile>)
    ensures c.None? <==> session.None?
    ensures c.Some? ==> c.value.(scores := session.value.scores) == session.value
    ensures FindUser(users, uid).None? || session.None? || session.value.uid != uid ==> c == session
    ensures UniqueUids(users) && session.Some? && session.value.uid == uid ==>
      forall i :: 0 <= i < |users| && users[i].uid == uid ==> c.value.scores == AppendScore(users, uid, entry)[i].scores
  {
    match FindUser(users, uid)
    case None => session
    case Some(k) =>
      if session.Some? && session.value.uid == uid
      then Some(session.value.(scores := users[k].scores + [entry]))
      else session
  }

  /** Saving a score adds its points to that user's total, keeps every earlier
      record in place, and leaves every other total alone. */
  lemma ScoreSavedOnce(users: seq<UserProfile>, uid: string, entry: ScoreEntry, i: nat)
    requires UniqueUids(users) && i < |users|
    ensures var r := AppendScore(users, uid, entry);
      && (users[i].uid == uid ==> Points(r[i]) == Points(users[i]) + entry.points)
      && (users[i].uid == uid ==> r[i].scores[..|users[i].scores|] == users[i].scores)
      && (users[i].uid != uid ==> Points(r[i]) == Points(users[i]))
  {
    var r := AppendScore(users, uid, entry);
    if users[i].uid == uid {
      assert r[i].scores[..|r[i].scores| - 1] == users[i].scores;
    }
  }

  /** The users collection after `setDoc(doc(uid), profile, { merge: true })`:
      every field of the profile is written, so it replaces what was stored. */
  function Upsert(users: seq<UserProfile>, profile: UserProfile): (r: seq<UserProfile>)
    ensures profile in r
    ensures forall u :: u in users && u.uid != profile.uid ==> u in r
    ensures UniqueUids(users) ==> forall u :: u in r ==> u == profile || (u in users && u.uid != profile.uid)
    ensures UniqueUids(users) ==> UniqueUids(r)
  {
    match FindUser(users, profile.uid)
    case None => users + [profile]
    case Some(k) =>
      assert users[k := profile][k] == profile;
      assert UniqueUids(users) ==> forall u :: u in users[k := profile] ==> u == profile || (u in users && u.uid != profile.uid) by {
        if UniqueUids(users) {
          forall u | u in users[k := profile] ensures u == profile || (u in users && u.uid != profile.uid) {
            var i :| 0 <= i < |users| && users[k := profile][i] == u;
            if i != k {
              assert users[i] == u;
            }
          }
        }
      }
      assert forall u :: u in users && u.uid != profile.uid ==> u in users[k := profile] by {
        forall u | u in users && u.uid != profile.uid ensures u in users[k := profile] {
          var i :| 0 <= i < |users| && users[i] == u;
          assert users[k := profile][i] == u;
        }
      }
      users[k := profile]
  }

  // ----------------------------------------------------------------- ranking

  predicate NonIncreasing(s: seq<UserProfile>) {
    forall i, j :: 0 <= i < j < |s| ==> Points(s[i]) >= Points(s[j])
  }

  /** In a non-increasing list the head has the highest total. */
  lemma HeadIsHighest(s: seq<UserProfile>)
    requires NonIncreasing(s) && s != []
    ensures forall x :: x in s ==> Points(x) <= Points(s[0])
  {
    forall x | x in s ensures Points(x) <= Points(s[0]) {
      var j :| 0 <= j < |s| && s[j] == x;
      if j > 0 {
        assert Points(s[0]) >= Points(s[j]);
      }
    }
  }

  /** A profile whose total bounds a non-increasing list may go in front of it. */
  lemma ConsNonIncreasing(a: UserProfile, rest: seq<UserProfile>)
    requires NonIncreasing(rest)
    requires forall x :: x in rest ==> Points(x) <= Points(a)
    ensures NonIncreasing([a] + rest)
  {
    var r := [a] + rest;
    forall i, j | 0 <= i < j < |r| ensures Points(r[i]) >= Points(r[j]) {
      assert r[j] == rest[j - 1];
      if i > 0 {
        assert r[i] == rest[i - 1];
      }
    }
  }

  /** A profile at least as high as the head of a non-increasing list may go first. */
  lemma InsertAtHead(u: UserProfile, s: seq<UserProfile>)
    requires NonIncreasing(s)
    requires s == [] || Points(s[0]) <= Points(u)
    ensures NonIncreasing([u] + s)
  {
    if s != [] {
      HeadIsHighest(s);
    }
    ConsNonIncreasing(u, s);
  }

  /** Puts `u` ahead of the first profile whose total does not exceed its own. */
  function InsertByPoints(u: UserProfile, s: seq<UserProfile>): (r: seq<UserProfile>)
    requires NonIncreasing(s)
    ensures NonIncreasing(r) && |r| == |s| + 1
    ensures multiset(r) == multiset(s) + multiset{u}
    ensures forall x :: x in r <==> x in s || x == u
  {
    if s == [] || Points(s[0]) <= Points(u) then
      InsertAtHead(u, s);
      [u] + s
    else
      assert s == [s[0]] + s[1..];
      assert NonIncreasing(s[1..]) by {
        forall i, j | 0 <= i < j < |s[1..]| ensures Points(s[1..][i]) >= Points(s[1..][j]) {
          assert s[1..][i] == s[i + 1] && s[1..][j] == s[j + 1];
        }
      }
      var rest := InsertByPoints(u, s[1..]);
      HeadIsHighest(s);
      ConsNonIncreasing(s[0], rest);
      [s[0]] + rest
  }

  /** The comparator `sumB - sumA` with a stable sort: highest total first,
      equal totals kept in collection order. */
  function SortByPoints(s: seq<UserProfile>): (r: seq<UserProfile>)
    ensures NonIncreasing(r) && |r| == |s|
    ensures multiset(r) == multiset(s)
  {
    if s == [] then []
    else
      assert s == [s[0]] + s[1..];
      InsertByPoints(s[0], SortByPoints(s[1..]))
  }

  /** `getGlobalRanking` over a snapshot of the users collection. */
  function GlobalRanking(users: seq<UserProfile>): (r: seq<UserProfile>)
    ensures |r| == Min(RankingSize, |users|)
    ensures NonIncreasing(r)
    ensures multiset(r) <= multiset(users)
  {
    var sorted := SortByPoints(users);
    var r := Take(sorted, RankingSize);
    PrefixNonIncreasing(sorted, |r|);
    r
  }

  /** A prefix of a non-increasing list is non-increasing. */
  lemma PrefixNonIncreasing(s: seq<UserProfile>, n: nat)
    requires NonIncreasing(s) && n <= |s|
    ensures NonIncreasing(s[..n])
  {
    forall i, j | 0 <= i < j < n ensures Points(s[..n][i]) >= Points(s[..n][j]) {
      assert s[..n][i] == s[i] && s[..n][j] == s[j];
    }
  }

  /** A user left out of the ranking has a total no higher than anyone in it. */
  lemma LeftOutRankLower(users: seq<UserProfile>, u: UserProfile)
    requires u in users && u !in GlobalRanking(users)
    ensures forall v :: v in GlobalRanking(users) ==> Points(v) >= Points(u)
  {
    var sorted := SortByPoints(users);
    var r := GlobalRanking(users);
    assert sorted == r + sorted[|r|..];
    assert u in multiset(users);
    assert u in sorted;
    var j :| 0 <= j < |sorted| && sorted[j] == u;
    assert j >= |r|;
    forall v | v in r ensures Points(v) >= Points(u) {
      var i :| 0 <= i < |r| && r[i] == v;
      assert sorted[i] == v;
    }
  }

  /** Two users with histories 10 + 20 and 25 rank 30 before 25, whichever
      order the collection holds them in. */
  lemma TwoUserRanking(u1: UserProfile, u2: UserProfile)
    requires |u1.scores| == 2 && u1.scores[0].points == 10 && u1.scores[1].points == 20
    requires |u2.scores| == 1 && u2.scores[0].points == 25
    ensures Points(u1) == 30 && Points(u2) == 25
    ensures GlobalRanking([u1, u2]) == [u1, u2] && GlobalRanking([u2, u1]) == [u1, u2]
  {
    TwoUserTotals(u1, u2);
    SortTwo(u1, u2);
    RankingOfFew([u1, u2]);
    RankingOfFew([u2, u1]);
  }

  /** Two profiles with different totals sort the higher first, in either order. */
  lemma SortTwo(a: UserProfile, b: UserProfile)
    requires Points(a) > Points(b)
    ensures SortByPoints([a, b]) == [a, b] && SortByPoints([b, a]) == [a, b]
  {
    assert [a, b][1..] == [b] && [b, a][1..] == [a];
    assert [b][1..] == [] && [a][1..] == [];
    assert SortByPoints([b]) == [b] && SortByPoints([a]) == [a];
    assert InsertByPoints(b, [a]) == [a] + InsertByPoints(b, []);
  }

  /** A collection of at most ten users is ranked whole. */
  lemma RankingOfFew(users: seq<UserProfile>)
    requires |users| <= RankingSize
    ensures GlobalRanking(users) == SortByPoints(users)
  {
  }

  /** The totals of the two histories in `TwoUserRanking`. */
  lemma TwoUserTotals(u1: UserProfile, u2: UserProfile)
    requires |u1.scores| == 2 && u1.scores[0].points == 10 && u1.scores[1].points == 20
    requires |u2.scores| == 1 && u2.scores[0].points == 25
    ensures Points(u1) == 30 && Points(u2) == 25
  {
    assert Total(u1.scores[..0]) == 0 && Total(u2.scores[..0]) == 0;
    assert Total(u1.scores[..1]) == 10 by {
      assert u1.scores[..1][..0] == u1.scores[..0];
    }
    assert Total(u1.scores) == 30 by {
      assert u1.scores[..|u1.scores| - 1] == u1.scores[..1];
    }
    assert Total(u2.scores) == 25 by {
      assert u2.scores[..|u2.scores| - 1] == u2.scores[..0];
    }
  }

  // ------------------------------------------------------------------- store

  /** The backend as the client sees it: both collections and the cached user. */
  class Db {
    var questions: seq<Question>
    var users: seq<UserProfile>
    /** The `pelada_session_v2` entry of localStorage, JSON round trip taken as identity. */
    var session: Option<UserProfile>

    /** Document ids are unique: a user's document id is its uid. */
    ghost predicate Valid()
      reads this
    {
      UniqueUids(users)
    }

    constructor (questions: seq<Question>, users: seq<UserProfile>)
      requires UniqueUids(users)
      ensures Valid()
      ensures this.questions == questions && this.users == users && session == None
    {
      this.questions := questions;
      this.users := users;
      session := None;
    }

    /** `getQuestions(theme)`: the approved questions of the theme; a failed
        read is caught and yields no questions. */
    function GetQuestions(theme: Theme, reachable: bool): (r: seq<Question>)
      reads this
      ensures !reachable ==> r == []
      ensures reachable ==> forall q :: q in r <==> q in questions && q.theme == theme && q.approved
      ensures multiset(r) <= multiset(questions)
    {
      if reachable then Select(questions, ApprovedIn(theme)) else []
    }

    /** `getPendingQuestions()`: the unapproved questions; a failed read is
        not caught and reaches the caller as a failure. */
    function GetPendingQuestions(reachable: bool): (r: Result<seq<Question>, StoreError>)
      reads this
      ensures r.Failure? <==> !reachable
      ensures r.Success? ==> forall q :: q in r.value <==> q in questions && !q.approved
    {
      if reachable then Success(Select(questions, Unapproved)) else Failure(Unreachable)
    }

    /** `saveQuestion(q)`: `addDoc` stores the question under a fresh document id. */
    method SaveQuestion(q: Question, newId: string)
      requires !HasId(questions, newId)
      modifies this`questions
      ensures questions == old(questions) + [q.(id := newId)]
    {
      questions := questions + [q.(id := newId)];
    }

    /** `approveQuestion(id)`: `updateDoc` of a missing document fails, and
        then nothing changes. */
    method ApproveQuestion(id: string) returns (found: bool)
      modifies this`questions
      ensures found == HasId(old(questions), id)
      ensures questions == Approve(old(questions), id)
    {
      found := HasId(questions, id);
      if found {
        questions := Approve(questions, id);
      } else {
        assert Approve(questions, id) == questions;
      }
    }

    /** `deleteQuestion(id)`: removes that document, if present. */
    method DeleteQuestion(id: string)
      modifies this`questions
      ensures questions == Select(old(questions), OtherThan(id))
      ensures forall q :: q in questions <==> q in old(questions) && q.id != id
    {
      questions := Select(questions, OtherThan(id));
    }

    /** `getCurrentUser()`: the cached profile, or nothing when no entry is
        stored. */
    function GetCurrentUser(): (r: Option<UserProfile>)
      reads this
      ensures r.None? <==> session.None?
      ensures r.Some? ==> r.value == session.value
    {
      session
    }

    /** `setCurrentUser(user)`: a profile is stored, `null` removes the entry. */
    method SetCurrentUser(user: Option<UserProfile>)
      modifies this`session
      ensures GetCurrentUser() == user
    {
      session := user;
    }

    /** `syncUserToFirestore(profile)`. */
    method SyncUser(profile: UserProfile)
      requires Valid()
      modifies this`users
      ensures Valid()
      ensures users == Upsert(old(users), profile)
    {
      users := Upsert(users, profile);
    }

    /** `saveScore(uid, theme, points)`: for a stored user, appends the record
        to its history and, when that user is the cached one, refreshes the
        cached copy's history with the stored one; an unknown uid changes
        nothing. */
    method SaveScore(uid: string, theme: Theme, points: int, date: string)
      requires Valid()
      modifies this`users, this`session
      ensures Valid()
      ensures users == AppendScore(old(users), uid, ScoreEntry(theme, points, date))
      ensures FindUser(old(users), uid).None? ==> users == old(users) && session == old(session)
      ensures session == CachedAfterSave(old(users), old(session), uid, ScoreEntry(theme, points, date))
    {
      var found := FindUser(users, uid);
      if found.Some? {
        var k := found.value;
        var newScores := users[k].scores + [ScoreEntry(theme, points, date)];
        users := users[k := users[k].(scores := newScores)];
        var current := GetCurrentUser();
        if current.Some? && current.value.uid == uid {
          SetCurrentUser(Some(current.value.(scores := newScores)));
        }
      }
    }
  }
}
