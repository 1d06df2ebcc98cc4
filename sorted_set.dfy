/** A Redis sorted set as the leaderboard uses it: members with scores,
 *  each member once, kept best first (the order ZRANGE ... REV reads). */
module SortedSet {
  import opened Basics

  datatype ZEntry = ZEntry(member: string, score: real)

  /** Scores never increase along the list. */
  predicate Descending(s: seq<ZEntry>) {
    forall i, j :: 0 <= i < j < |s| ==> s[i].score >= s[j].score
  }

  /** No member appears twice. */
  predicate Unique(s: seq<ZEntry>) {
    forall i, j :: 0 <= i < j < |s| ==> s[i].member != s[j].member
  }

  predicate Good(s: seq<ZEntry>) {
    Descending(s) && Unique(s)
  }

  /** The members of the set: every entry's member, and as many of them
   *  as entries when no member appears twice. */
  function Members(s: seq<ZEntry>): (m: set<string>)
    ensures forall x :: x in m <==> exists i :: 0 <= i < |s| && s[i].member == x
    ensures |m| <= |s|
    ensures Unique(s) ==> |m| == |s|
    decreases |s|
  {
    if s == [] then {}
    else
      var rest := Members(s[1..]);
      PrependMember(s, rest);
      {s[0].member} + rest
  }

  /** The step of Members: the tail's members with the first entry's
   *  member added are the whole sequence's members. */
  lemma PrependMember(s: seq<ZEntry>, rest: set<string>)
    requires s != []
    requires forall x :: x in rest <==> exists i :: 0 <= i < |s| - 1 && s[1..][i].member == x
    requires |rest| <= |s| - 1
    requires Unique(s[1..]) ==> |rest| == |s| - 1
    ensures forall x :: x in {s[0].member} + rest <==> exists i :: 0 <= i < |s| && s[i].member == x
    ensures |{s[0].member} + rest| <= |s|
    ensures Unique(s) ==> |{s[0].member} + rest| == |s|
  {
    forall x
      ensures x in {s[0].member} + rest <==> exists i :: 0 <= i < |s| && s[i].member == x
    {
      if x in rest {
        var i :| 0 <= i < |s| - 1 && s[1..][i].member == x;
        assert s[i + 1].member == x;
      }
      if exists i :: 0 <= i < |s| && s[i].member == x {
        var i :| 0 <= i < |s| && s[i].member == x;
        if i > 0 {
          assert s[1..][i - 1].member == x;
        }
      }
    }
    if Unique(s) {
      assert Unique(s[1..]) by {
        forall i, j | 0 <= i < j < |s| - 1
          ensures s[1..][i].member != s[1..][j].member
        {
          assert s[1..][i] == s[i + 1] && s[1..][j] == s[j + 1];
        }
      }
    }
  }

  /** ZSCORE: the member's score, or None when it is absent. */
  function ZScore(s: seq<ZEntry>, member: string): (r: Option<real>)
    ensures r.None? <==> member !in Members(s)
    ensures r.Some? ==> ZEntry(member, r.value) in s
  {
    if s == [] then None
    else if s[0].member == member then Some(s[0].score)
    else ZScore(s[1..], member)
  }

  /** In a set without duplicates, an entry of the member holds its score. */
  lemma {:induction false} ZScoreOfEntry(s: seq<ZEntry>, e: ZEntry)
    requires Unique(s) && e in s
    ensures ZScore(s, e.member) == Some(e.score)
  {
    if s[0] != e {
      assert e in s[1..];
      ZScoreOfEntry(s[1..], e);
    }
  }

  /** The set without the member's entry. */
  function Without(s: seq<ZEntry>, member: string): (r: seq<ZEntry>)
    ensures |r| <= |s|
    ensures forall e :: e in r <==> e in s && e.member != member
  {
    if s == [] then []
    else
      var rest := Without(s[1..], member);
      assert forall e :: e in s[1..] ==> e in s;
      if s[0].member == member then rest else [s[0]] + rest
  }

  /** Every entry left after removing a member was an entry of the set. */
  lemma EntryOfWithout(s: seq<ZEntry>, member: string, j: nat)
    requires s != [] && j < |Without(s[1..], member)|
    ensures exists k :: 1 <= k < |s| && s[k] == Without(s[1..], member)[j]
  {
    var tail := s[1..];
    assert Without(tail, member)[j] in tail;
    var k :| 0 <= k < |tail| && tail[k] == Without(tail, member)[j];
    assert s[k + 1] == tail[k];
  }

  /** Removing a member keeps the set best first. */
  lemma {:induction false} WithoutKeepsOrder(s: seq<ZEntry>, member: string)
    requires Descending(s)
    ensures Descending(Without(s, member))
  {
    if s != [] {
      var tail := s[1..];
      assert Descending(tail) by {
        assert forall i :: 0 <= i < |tail| ==> tail[i] == s[i + 1];
      }
      WithoutKeepsOrder(tail, member);
      var rest := Without(tail, member);
      if s[0].member != member {
        forall j | 0 <= j < |rest|
          ensures s[0].score >= rest[j].score
        {
          EntryOfWithout(s, member, j);
        }
        assert Without(s, member) == [s[0]] + rest;
      }
    }
  }

  /** Removing a member keeps the members unique. */
  lemma {:induction false} WithoutKeepsUnique(s: seq<ZEntry>, member: string)
    requires Unique(s)
    ensures Unique(Without(s, member))
  {
    if s != [] {
      var tail := s[1..];
      assert Unique(tail) by {
        assert forall i :: 0 <= i < |tail| ==> tail[i] == s[i + 1];
      }
      WithoutKeepsUnique(tail, member);
      var rest := Without(tail, member);
      if s[0].member != member {
        forall j | 0 <= j < |rest|
          ensures s[0].member != rest[j].member
        {
          EntryOfWithout(s, member, j);
        }
        assert Without(s, member) == [s[0]] + rest;
      }
    }
  }

  /** Inserts an entry in front of the first one that does not score
   *  higher. */
  function Insert(s: seq<ZEntry>, e: ZEntry): (r: seq<ZEntry>)
    ensures |r| == |s| + 1
    ensures forall x :: x in r <==> x in s || x == e
    ensures Descending(s) ==> Descending(r)
  {
    if s == [] || e.score >= s[0].score then [e] + s
    else
      var rest := Insert(s[1..], e);
      assert forall x :: x in s[1..] ==> x in s;
      assert Descending(s) ==> forall x :: x in rest ==> s[0].score >= x.score;
      [s[0]] + rest
  }

  /** ZADD: the member's score becomes `score`, whether or not it was
   *  there. */
  function ZAdd(s: seq<ZEntry>, member: string, score: real): (r: seq<ZEntry>)
    ensures forall e :: e in r <==> e == ZEntry(member, score) || (e in s && e.member != member)
    ensures Good(s) ==> Good(r)
  {
    var rest := Without(s, member);
    assert Good(s) ==> Good(rest) by {
      if Good(s) {
        WithoutKeepsOrder(s, member);
        WithoutKeepsUnique(s, member);
      }
    }
    var r := Insert(rest, ZEntry(member, score));
    assert Unique(rest) ==> Unique(r) by {
      if Unique(rest) {
        InsertNewMember(rest, ZEntry(member, score));
      }
    }
    r
  }

  /** Inserting an entry whose member is absent keeps members unique. */
  lemma {:induction false} InsertNewMember(s: seq<ZEntry>, e: ZEntry)
    requires Unique(s) && forall x :: x in s ==> x.member != e.member
    ensures Unique(Insert(s, e))
  {
    if s != [] && e.score < s[0].score {
      assert forall x :: x in s[1..] ==> x in s;
      InsertNewMember(s[1..], e);
      var rest := Insert(s[1..], e);
      forall j | 0 <= j < |rest|
        ensures rest[j].member != s[0].member
      {
        assert rest[j] in s[1..] || rest[j] == e;
        if rest[j] in s[1..] {
          var k :| 0 <= k < |s[1..]| && s[1..][k] == rest[j];
          assert s[k + 1] == rest[j];
        }
      }
    }
  }

  /** After ZADD the member holds the new score and every other member
   *  keeps its own. */
  lemma ZAddScores(s: seq<ZEntry>, member: string, score: real, other: string)
    requires Good(s)
    ensures ZScore(ZAdd(s, member, score), member) == Some(score)
    ensures other != member ==> ZScore(ZAdd(s, member, score), other) == ZScore(s, other)
  {
    var r := ZAdd(s, member, score);
    ZScoreOfEntry(r, ZEntry(member, score));
    if other != member {
      var before := ZScore(s, other);
      if before.Some? {
        ZScoreOfEntry(r, ZEntry(other, before.value));
      }
    }
  }

  /** ZRANGE key 0 n-1 REV: the n best entries, best first. */
  function TopN(s: seq<ZEntry>, n: nat): (r: seq<ZEntry>)
    ensures |r| <= n && |r| <= |s| && r <= s
    ensures |s| >= n ==> |r| == n
    ensures Descending(s) ==> Descending(r)
    ensures Descending(s) ==> forall i, j :: 0 <= i < |r| && |r| <= j < |s| ==> r[i].score >= s[j].score
  {
    if |s| <= n then s else s[..n]
  }
}
