/** What the status list screen derives from the held status list. */
module StatusListScreen {
  import opened Data
  import opened Seqs

  /** `myStatutes`: the posts whose author id is the own id, in list order. */
  function MyStatutes(statutes: seq<Status>, userData: Option<UserData>): (r: seq<Status>)
    ensures forall s :: s in r <==> s in statutes && s.user.userId == OwnId(userData)
  {
    Filter(statutes, (s: Status) => s.user.userId == OwnId(userData))
  }

  /** `otherStatutes`: the remaining posts, in list order. */
  function OtherStatutes(statutes: seq<Status>, userData: Option<UserData>): (r: seq<Status>)
    ensures forall s :: s in r <==> s in statutes && s.user.userId != OwnId(userData)
  {
    Filter(statutes, (s: Status) => s.user.userId != OwnId(userData))
  }

  /** Both lists keep list order: each is computed piecewise over a concatenation. */
  lemma PartitionKeepsOrder(s: seq<Status>, t: seq<Status>, userData: Option<UserData>)
    ensures MyStatutes(s + t, userData) == MyStatutes(s, userData) + MyStatutes(t, userData)
    ensures OtherStatutes(s + t, userData) == OtherStatutes(s, userData) + OtherStatutes(t, userData)
  {
    FilterAppend(s, t, (x: Status) => x.user.userId == OwnId(userData));
    FilterAppend(s, t, (x: Status) => x.user.userId != OwnId(userData));
  }

  /** Every post lands in exactly one of the two lists, as often as it occurs. */
  lemma PartitionIsExact(statutes: seq<Status>, userData: Option<UserData>)
    ensures multiset(MyStatutes(statutes, userData)) + multiset(OtherStatutes(statutes, userData)) == multiset(statutes)
    ensures forall s :: s in statutes ==> (s in MyStatutes(statutes, userData) <==> s !in OtherStatutes(statutes, userData))
  {
    FilterPartition(statutes,
      (x: Status) => x.user.userId == OwnId(userData),
      (x: Status) => x.user.userId != OwnId(userData));
  }

  /** `otherStatutes.map { it.user }`. */
  function Authors(statutes: seq<Status>): (r: seq<ChatUser>)
    ensures |r| == |statutes| && forall i :: 0 <= i < |r| ==> r[i] == statutes[i].user
  {
    seq(|statutes|, i requires 0 <= i < |statutes| => statutes[i].user)
  }

  /** `uniqueUsers`: the authors without repetition, in first-occurrence order.
      Authors are compared as whole snapshots. */
  function UniqueUsers(others: seq<Status>): (r: seq<ChatUser>)
    ensures forall i, j :: 0 <= i < j < |r| ==> r[i] != r[j]
    ensures forall u :: u in r <==> exists i :: 0 <= i < |others| && others[i].user == u
  {
    var authors := Authors(others);
    assert forall u :: u in authors <==> exists i :: 0 <= i < |others| && others[i].user == u by {
      forall u | u in authors ensures exists i :: 0 <= i < |others| && others[i].user == u {
        var i :| 0 <= i < |authors| && authors[i] == u;
      }
      forall u | exists i :: 0 <= i < |others| && others[i].user == u ensures u in authors {
        var i :| 0 <= i < |others| && others[i].user == u;
        assert authors[i] == u;
      }
    }
    Distinct(authors)
  }

  /** The unique authors appear in the order of their first posts. */
  lemma UniqueUsersInFirstPostOrder(others: seq<Status>)
    ensures forall i, j :: 0 <= i < j < |UniqueUsers(others)| ==>
      FirstIndex(Authors(others), UniqueUsers(others)[i]) < FirstIndex(Authors(others), UniqueUsers(others)[j])
  {
    DistinctFirstOccurrenceOrder(Authors(others));
  }

  /** Two posts by one user under different snapshots (say, before and after a
      name change) give two entries. */
  lemma DifferingSnapshotsListedTwice(others: seq<Status>, i: nat, j: nat)
    requires i < |others| && j < |others|
    requires others[i].user.userId == others[j].user.userId && others[i].user != others[j].user
    ensures exists a, b ::
      0 <= a < b < |UniqueUsers(others)| &&
      {UniqueUsers(others)[a], UniqueUsers(others)[b]} == {others[i].user, others[j].user}
  {
    var r := UniqueUsers(others);
    assert others[i].user in r && others[j].user in r;
    var a :| 0 <= a < |r| && r[a] == others[i].user;
    var b :| 0 <= b < |r| && r[b] == others[j].user;
    if a < b {
      assert {r[a], r[b]} == {others[i].user, others[j].user};
    } else {
      assert {r[b], r[a]} == {others[i].user, others[j].user};
    }
  }

  /** What the screen shows. */
  datatype StatusListView =
    | ProgressBar
    | NoStatutesAvailable
    | Rows(mine: Option<ChatUser>, others: seq<ChatUser>)

  /** The screen: a progress bar while loading, the empty notice for an empty
      list, else the own summary row from the first own post followed by the
      unique other authors; without an own post, neither is shown. */
  function StatusList(inProgress: bool, statutes: seq<Status>, userData: Option<UserData>): (v: StatusListView)
    ensures v.ProgressBar? <==> inProgress
    ensures v.NoStatutesAvailable? <==> !inProgress && statutes == []
    ensures v.Rows? ==> (v.mine.Some? <==> MyStatutes(statutes, userData) != [])
    ensures v.Rows? && v.mine.Some? ==>
      v.mine.value == MyStatutes(statutes, userData)[0].user &&
      v.others == UniqueUsers(OtherStatutes(statutes, userData))
    ensures v.Rows? && v.mine.None? ==> v.others == []
  {
    if inProgress then ProgressBar
    else if statutes == [] then NoStatutesAvailable
    else
      var mine := MyStatutes(statutes, userData);
      if mine != [] then Rows(Some(mine[0].user), UniqueUsers(OtherStatutes(statutes, userData)))
      else Rows(None, [])
  }
}
