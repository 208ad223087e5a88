/** Strength sessions of one local day and their estimated length
    (src/report/generator.py, lines 163-179 and 198-217). */
module Sessions {
  import opened Wrappers
  import opened Seqs
  import opened Entries

  type Session = seq<Cleaned>

  /** Line 172: entries at most 30 minutes apart share a session. */
  const MaxGap := 1800

  /** Lines 168-172: `c` may join `s` when it comes at most `MaxGap` seconds
      after the session's last entry; a negative gap qualifies too. */
  predicate Fits(s: Session, c: Cleaned) {
    s != [] && c.at.instant - s[|s| - 1].at.instant <= MaxGap
  }

  /** The first session, in creation order, that `c` may join. */
  function FirstFit(ss: seq<Session>, c: Cleaned): (r: Option<nat>)
    ensures r.Some? ==> r.value < |ss| && Fits(ss[r.value], c)
    ensures r.Some? ==> forall j :: 0 <= j < r.value ==> !Fits(ss[j], c)
    ensures r.None? <==> forall j :: 0 <= j < |ss| ==> !Fits(ss[j], c)
  {
    if ss == [] then None
    else if Fits(ss[0], c) then Some(0)
    else match FirstFit(ss[1..], c)
      case None => None
      case Some(i) => Some(i + 1)
  }

  /** Lines 164-179 for one strength entry: join the first fitting session,
      or open a new one. */
  function Place(ss: seq<Session>, c: Cleaned): seq<Session> {
    match FirstFit(ss, c)
    case Some(i) => ss[i := ss[i] + [c]]
    case None => ss + [[c]]
  }

  /** The loop at lines 166-179, with its `session_found` flag. */
  method PlaceStrength(sessions: seq<Session>, c: Cleaned) returns (r: seq<Session>)
    ensures r == Place(sessions, c)
  {
    r := sessions;
    var found := false;
    var i := 0;
    while i < |sessions|
      invariant 0 <= i <= |sessions|
      invariant r == sessions && !found
      invariant forall j :: 0 <= j < i ==> !Fits(sessions[j], c)
    {
      if Fits(sessions[i], c) {
        r := r[i := r[i] + [c]];
        found := true;
        break;
      }
      i := i + 1;
    }
    if !found {
      r := r + [[c]];
    }
  }

  predicate AllNonEmpty(ss: seq<Session>) {
    forall i :: 0 <= i < |ss| ==> ss[i] != []
  }

  /** Placing an entry adds it to exactly one session, keeps every other
      entry where it was, and never leaves a session empty. */
  lemma PlaceKeepsEntries(ss: seq<Session>, c: Cleaned)
    requires AllNonEmpty(ss)
    ensures AllNonEmpty(Place(ss, c))
    ensures multiset(Concat(Place(ss, c))) == multiset(Concat(ss)) + multiset{c}
    ensures |ss| <= |Place(ss, c)| <= |ss| + 1
  {
    match FirstFit(ss, c)
    case Some(i) =>
      ConcatUpdate(ss, i, c);
    case None =>
      ConcatAppend(ss, [[c]]);
      assert Concat([[c]]) == [c] by { assert [[c]][..0] == []; }
  }

  /** A new session is opened exactly when no existing session fits. */
  lemma PlaceOpensSession(ss: seq<Session>, c: Cleaned)
    ensures |Place(ss, c)| == |ss| + 1 <==> forall j :: 0 <= j < |ss| ==> !Fits(ss[j], c)
    ensures |Place(ss, c)| == |ss| + 1 ==> Place(ss, c)[|ss|] == [c]
  {
  }

  /** Lines 153-179 for one day: the sessions built from that day's entries
      in order; only strength entries are placed. */
  function Sessionize(es: seq<Cleaned>): seq<Session> {
    if es == [] then []
    else
      var last := es[|es| - 1];
      var ss := Sessionize(es[..|es| - 1]);
      if last.isStrength then Place(ss, last) else ss
  }

  predicate IsStrength(c: Cleaned) {
    c.isStrength
  }

  /** The sessions of a day hold exactly its strength entries, each once,
      and no session is empty. */
  lemma {:induction false} SessionizeHoldsStrength(es: seq<Cleaned>)
    ensures AllNonEmpty(Sessionize(es))
    ensures multiset(Concat(Sessionize(es))) == multiset(Filter(es, IsStrength))
  {
    if es != [] {
      var init, last := es[..|es| - 1], es[|es| - 1];
      SessionizeHoldsStrength(init);
      if last.isStrength {
        PlaceKeepsEntries(Sessionize(init), last);
      }
    }
  }

  /** Line 201: the distinct instants of a session (aware times compare by
      their UTC instant). */
  function Instants(s: Session): set<int> {
    set i | 0 <= i < |s| :: s[i].at.instant
  }

  /** Lines 212-215: two minutes per working set, one per warm-up set. */
  function Estimate(s: Session): real {
    if s == [] then 0.0
    else Estimate(s[..|s| - 1]) + (if IsTrueText(s[|s| - 1].isWarmup) then 60.0 else 120.0)
  }

  /** Lines 199-215: last minus first when the session has more than one
      distinct instant, the estimate otherwise. */
  function SessionDuration(s: Session): real {
    if |Instants(s)| > 1 then (s[|s| - 1].at.instant - s[0].at.instant) as real
    else Estimate(s)
  }

  /** Lines 198-217 for one day: the durations of its non-empty sessions added up. */
  function SessionsDuration(ss: seq<Session>): real {
    if ss == [] then 0.0
    else SessionsDuration(ss[..|ss| - 1]) + (if ss[|ss| - 1] != [] then SessionDuration(ss[|ss| - 1]) else 0.0)
  }

  /** A session has more than one distinct instant exactly when some entry
      differs in time from the first one. */
  lemma DistinctInstants(s: Session)
    requires s != []
    ensures |Instants(s)| > 1 <==> exists i :: 0 <= i < |s| && s[i].at.instant != s[0].at.instant
  {
    var t0 := s[0].at.instant;
    if exists i :: 0 <= i < |s| && s[i].at.instant != t0 {
      var i :| 0 <= i < |s| && s[i].at.instant != t0;
      assert {t0, s[i].at.instant} <= Instants(s);
      assert |{t0, s[i].at.instant}| == 2;
      SubsetCard({t0, s[i].at.instant}, Instants(s));
    } else {
      assert Instants(s) == {t0};
    }
  }

  lemma SubsetCard(a: set<int>, b: set<int>)
    requires a <= b
    ensures |a| <= |b|
  {
    assert b == a + (b - a);
  }

  /** The estimate lies between one and two minutes per set, and is one
      minute per set exactly when every set is a warm-up. */
  lemma {:induction false} EstimateBounds(s: Session)
    ensures 60.0 * |s| as real <= Estimate(s) <= 120.0 * |s| as real
    ensures Estimate(s) == 60.0 * |s| as real <==> forall i :: 0 <= i < |s| ==> IsTrueText(s[i].isWarmup)
  {
    if s != [] {
      var init := s[..|s| - 1];
      EstimateBounds(init);
      assert forall i :: 0 <= i < |init| ==> init[i] == s[i];
    }
  }

  /** A session whose entries all share one instant is estimated, so its
      duration is positive; otherwise it is the span from its first to its
      last entry. */
  lemma DurationCases(s: Session)
    requires s != []
    ensures (forall i :: 0 <= i < |s| ==> s[i].at.instant == s[0].at.instant) ==>
      SessionDuration(s) == Estimate(s) && SessionDuration(s) >= 60.0
    ensures (exists i :: 0 <= i < |s| && s[i].at.instant != s[0].at.instant) ==>
      SessionDuration(s) == (s[|s| - 1].at.instant - s[0].at.instant) as real
  {
    DistinctInstants(s);
    EstimateBounds(s);
  }
}
