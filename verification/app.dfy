/** The small pure pieces of the screens in App.tsx (the mock sign-in, the
    suggestion form, the profile history) and the wiring that connects the
    quiz to the store. */
module App {
  import opened Wrappers
  import opened Types
  import opened Sequences
  import opened DbService
  import opened Quiz

  /** The address that signs in with the admin role. */
  const AdminEmail: string := "admin@bola.com"
  /** Entries shown in the profile's history. */
  const HistorySize: nat := 5

  // ----------------------------------------------------------- mock sign-in

  /** The characters the pattern `[a-zA-Z0-9]` accepts. */
  predicate IsAlnum(c: char) {
    'a' <= c <= 'z' || 'A' <= c <= 'Z' || '0' <= c <= '9'
  }

  /** `s.replace(/[^a-zA-Z0-9]/g, "")`. */
  function KeepAlnum(s: string): (r: string)
    ensures |r| <= |s|
    ensures forall i :: 0 <= i < |r| ==> IsAlnum(r[i])
  {
    if s == [] then []
    else (if IsAlnum(s[0]) then [s[0]] else []) + KeepAlnum(s[1..])
  }

  /** Every alphanumeric character is kept as often as it occurs; no other
      character is kept at all. */
  lemma {:induction false} KeepAlnumCounts(s: string, c: char)
    ensures multiset(KeepAlnum(s))[c] == if IsAlnum(c) then multiset(s)[c] else 0
    decreases |s|
  {
    if s != [] {
      KeepAlnumCounts(s[1..], c);
      assert s == [s[0]] + s[1..];
      assert multiset(s) == multiset{s[0]} + multiset(s[1..]);
    }
  }

  /** Filtering works piecewise, so the kept characters stay in their order. */
  lemma {:induction false} KeepAlnumConcat(a: string, b: string)
    ensures KeepAlnum(a + b) == KeepAlnum(a) + KeepAlnum(b)
    decreases |a|
  {
    if a == [] {
      assert a + b == b;
    } else {
      var head := if IsAlnum(a[0]) then [a[0]] else [];
      assert (a + b)[0] == a[0] && (a + b)[1..] == a[1..] + b;
      assert KeepAlnum(a + b) == head + KeepAlnum(a[1..] + b);
      KeepAlnumConcat(a[1..], b);
      assert KeepAlnum(a) == head + KeepAlnum(a[1..]);
    }
  }

  /** A string comes through unchanged exactly when it is all alphanumeric. */
  lemma {:induction false} KeepAlnumFixes(s: string)
    ensures KeepAlnum(s) == s <==> forall i :: 0 <= i < |s| ==> IsAlnum(s[i])
    decreases |s|
  {
    if s != [] {
      KeepAlnumFixes(s[1..]);
      if !IsAlnum(s[0]) {
        assert |KeepAlnum(s)| <= |s[1..]|;
      }
    }
  }

  /** The uid the mock sign-in gives an email address. */
  function MockUid(email: string): (uid: string)
    ensures |uid| >= 5 && uid[..5] == "user-"
    ensures forall i :: 5 <= i < |uid| ==> IsAlnum(uid[i])
  {
    "user-" + KeepAlnum(email)
  }

  /** Two addresses share a uid exactly when their alphanumeric characters agree. */
  lemma MockUidsAgree(e1: string, e2: string)
    ensures MockUid(e1) == MockUid(e2) <==> KeepAlnum(e1) == KeepAlnum(e2)
  {
    if MockUid(e1) == MockUid(e2) {
      assert KeepAlnum(e1) == MockUid(e1)[5..];
    }
  }

  /** A character outside `[a-zA-Z0-9]` never affects the uid, so addresses
      such as "a.b@x" and "ab@x" sign in as the same user. */
  lemma PunctuationIgnored(a: string, c: char, b: string)
    requires !IsAlnum(c)
    ensures MockUid(a + [c] + b) == MockUid(a + b)
  {
    assert [c][1..] == [];
    assert KeepAlnum([c]) == [];
    KeepAlnumConcat(a + [c], b);
    KeepAlnumConcat(a, [c]);
    KeepAlnumConcat(a, b);
    assert KeepAlnum(a + [c]) == KeepAlnum(a);
  }

  /** The profile `handleLogin` builds. */
  function MockProfile(email: string): (p: UserProfile)
    ensures p.uid == MockUid(email) && p.email == email && p.displayName == "Craque"
    ensures p.role == Admin <==> email == AdminEmail
    ensures p.scores == []
  {
    UserProfile(MockUid(email), email, "Craque", if email == AdminEmail then Admin else User, [])
  }

  /** Signing in writes the fresh profile over any stored one, so the stored
      history of that uid is empty afterwards. */
  lemma SignInClearsHistory(users: seq<UserProfile>, email: string)
    requires UniqueUids(users)
    ensures forall u :: u in Upsert(users, MockProfile(email)) && u.uid == MockUid(email) ==> Points(u) == 0
  {
  }

  /** `handleLogin` followed by `onLogin`: the profile is written to the
      users collection and cached as the current user. */
  method SignIn(db: Db, email: string) returns (profile: UserProfile)
    requires db.Valid()
    modifies db`users, db`session
    ensures db.Valid()
    ensures profile == MockProfile(email)
    ensures db.users == Upsert(old(db.users), profile)
    ensures db.GetCurrentUser() == Some(profile)
  {
    profile := MockProfile(email);
    db.SyncUser(profile);
    db.SetCurrentUser(Some(profile));
  }

  // ----------------------------------------------------------- suggestions

  /** The fields of the suggestion form. */
  datatype SuggestionForm = SuggestionForm(text: string, correct: string, o2: string, o3: string, o4: string, theme: Theme)

  /** The question `submit` builds: the four options in shuffled order,
      difficulty 'médio', subtheme 'Comunidade', approved only in admin mode.
      `stamp` stands for `Date.now()`, `picks` for the shuffle's draws. */
  function Suggestion(form: SuggestionForm, adminMode: bool, author: string, stamp: string, picks: seq<nat>): (q: Question)
    ensures multiset(q.options) == multiset([form.correct, form.o2, form.o3, form.o4])
    ensures |q.options| == 4 && q.correctAnswer in q.options
    ensures q.correctAnswer == form.correct && q.text == form.text && q.theme == form.theme
    ensures q.approved == adminMode && q.difficulty == Medio && q.subtheme == "Comunidade"
    ensures q.suggestedBy == Some(author) && q.id == "q-" + stamp
  {
    var options := Shuffle([form.correct, form.o2, form.o3, form.o4], picks);
    assert form.correct in multiset(options);
    Question("q-" + stamp, form.text, options, form.correct, form.theme, "Comunidade", Medio, adminMode, Some(author))
  }

  /** A suggestion sent outside admin mode waits in the moderation queue and
      is served in no round until it is approved. */
  lemma SuggestionAwaitsModeration(qs: seq<Question>, form: SuggestionForm, author: string, stamp: string, picks: seq<nat>, newId: string)
    ensures var stored := Suggestion(form, false, author, stamp, picks).(id := newId);
      && stored in Select(qs + [stored], Unapproved)
      && forall t :: stored !in Select(qs + [stored], ApprovedIn(t))
  {
  }

  /** `submit`: the suggestion is built and saved under a fresh document id. */
  method SubmitSuggestion(db: Db, form: SuggestionForm, adminMode: bool, author: string, stamp: string, picks: seq<nat>, newId: string)
    returns (q: Question)
    requires !HasId(db.questions, newId)
    modifies db`questions
    ensures q == Suggestion(form, adminMode, author, stamp, picks)
    ensures db.questions == old(db.questions) + [q.(id := newId)]
  {
    q := Suggestion(form, adminMode, author, stamp, picks);
    db.SaveQuestion(q, newId);
  }

  // ---------------------------------------------------------------- profile

  /** `scores.slice(-5).reverse()`: the latest entries, newest first. */
  function RecentScores(scores: seq<ScoreEntry>): (r: seq<ScoreEntry>)
    ensures |r| == Min(HistorySize, |scores|)
    ensures forall i :: 0 <= i < |r| ==> r[i] == scores[|scores| - 1 - i]
  {
    Reverse(scores[|scores| - Min(HistorySize, |scores|)..])
  }

  // ------------------------------------------------------------ round wiring

  /** A timer of the running round fires; when it ends the round, `onFinish`
      or `onGameOver` saves the score under the signed-in user. */
  method OnTimer(view: QuizView, db: Db, uid: string, date: string) returns (reported: Option<Outcome>)
    requires db.Valid()
    modifies view`currentIndex, view`selectedOption, view`feedback, view`timer, view`outcome, db`users, db`session
    ensures db.Valid()
    ensures view.State() == Fire(old(view.State()))
    ensures reported == Ending(old(view.State()))
    ensures reported.None? ==> db.users == old(db.users) && db.session == old(db.session)
    ensures reported.Some? ==> db.users == AppendScore(old(db.users), uid, ScoreEntry(view.theme, reported.value.score, date))
    ensures reported.Some? ==> db.session == CachedAfterSave(old(db.users), old(db.session), uid, ScoreEntry(view.theme, reported.value.score, date))
  {
    reported := view.TimerFires();
    if reported.Some? {
      db.SaveScore(uid, view.theme, reported.value.score, date);
    }
  }
}
