/**
 * A persisted registration and the store's newest-first ordering. The store itself
 * (its create and find operations) is a sequence of these records.
 */
module Store {
  import opened Wrappers
  import opened Types

  /** A creation time: milliseconds since the epoch and its ISO-8601 text, kept opaque. */
  datatype Timestamp = Timestamp(millis: nat, iso: string)

  /** A row of the registrations table, with the id and creation time the store assigns. */
  datatype Registration = Registration(
    id: string,
    name: string,
    age: Option<int>,
    whatsapp: string,
    email: Option<string>,
    contest: Contest,
    message: Option<string>,
    numberOfChildren: Option<int>,
    photoUrl: Option<string>,
    videoUrl: Option<string>,
    createdAt: Timestamp,
    ipAddress: Option<string>)

  /** `orderBy: { createdAt: 'desc' }` holds of `s`. */
  predicate NewestFirst(s: seq<Registration>)
  {
    forall i, j :: 0 <= i < j < |s| ==> s[i].createdAt.millis >= s[j].createdAt.millis
  }

  /** Places `r` before the first record that is strictly older than it. */
  function InsertNewestFirst(r: Registration, s: seq<Registration>): (t: seq<Registration>)
    requires NewestFirst(s)
    ensures NewestFirst(t)
    ensures multiset(t) == multiset(s) + multiset{r}
    ensures |t| == |s| + 1
    ensures t[0] == r || (s != [] && t[0] == s[0])
  {
    if s == [] || s[0].createdAt.millis <= r.createdAt.millis then
      ConsNewestFirst(r, s);
      [r] + s
    else
      NewestFirstTail(s);
      var rest := InsertNewestFirst(r, s[1..]);
      assert s == [s[0]] + s[1..];
      assert rest[0].createdAt.millis <= s[0].createdAt.millis by {
        if rest[0] != r { assert s[1].createdAt.millis <= s[0].createdAt.millis; }
      }
      ConsNewestFirst(s[0], rest);
      [s[0]] + rest
  }

  /** Dropping the newest record keeps the order. */
  lemma {:induction false} NewestFirstTail(s: seq<Registration>)
    requires NewestFirst(s) && s != []
    ensures NewestFirst(s[1..])
  {
    forall i, j | 0 <= i < j < |s| - 1
      ensures s[1..][i].createdAt.millis >= s[1..][j].createdAt.millis
    {
      assert s[1..][i] == s[i + 1] && s[1..][j] == s[j + 1];
    }
  }

  /** A record no older than the newest of an ordered sequence can go in front of it. */
  lemma {:induction false} ConsNewestFirst(x: Registration, t: seq<Registration>)
    requires NewestFirst(t)
    requires t != [] ==> t[0].createdAt.millis <= x.createdAt.millis
    ensures NewestFirst([x] + t)
  {
    var u := [x] + t;
    forall i, j | 0 <= i < j < |u|
      ensures u[i].createdAt.millis >= u[j].createdAt.millis
    {
      assert u[j] == t[j - 1];
      if i > 0 {
        assert u[i] == t[i - 1];
      } else if j > 1 {
        assert t[0].createdAt.millis >= t[j - 1].createdAt.millis;
      }
    }
  }

  /** The records of `s`, newest first. */
  function SortNewestFirst(s: seq<Registration>): (t: seq<Registration>)
    ensures NewestFirst(t)
    ensures multiset(t) == multiset(s)
    ensures |t| == |s|
  {
    if s == [] then []
    else
      assert s == [s[0]] + s[1..];
      InsertNewestFirst(s[0], SortNewestFirst(s[1..]))
  }
}
