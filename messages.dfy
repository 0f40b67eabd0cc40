/** The message list of an open chat: `sortedBy { it.timestamp }` on the
    delivered documents, with the timestamp compared as a string. */
module Messages {
  import opened Data
  import opened Strings

  /** Each message's timestamp string is at most the next one's. */
  predicate Sorted(s: seq<Message>) {
    forall i :: 0 < i < |s| ==> StrLe(s[i - 1].timestamp, s[i].timestamp)
  }

  /** Puts `m` in front of the first message whose timestamp is not smaller. */
  function Insert(m: Message, s: seq<Message>): (r: seq<Message>)
    requires Sorted(s)
    ensures Sorted(r)
    ensures multiset(r) == multiset{m} + multiset(s)
    ensures |r| == |s| + 1 && (r[0] == m || (s != [] && r[0] == s[0]))
    decreases |s|
  {
    if s == [] || StrLe(m.timestamp, s[0].timestamp) then [m] + s
    else
      StrLeTotal(m.timestamp, s[0].timestamp);
      var t := Insert(m, s[1..]);
      assert s == [s[0]] + s[1..];
      [s[0]] + t
  }

  /** The messages in non-decreasing timestamp order: a sorted permutation of
      the input. */
  function SortByTimestamp(s: seq<Message>): (r: seq<Message>)
    ensures Sorted(r)
    ensures multiset(r) == multiset(s)
    decreases |s|
  {
    if s == [] then []
    else
      assert s == [s[0]] + s[1..];
      Insert(s[0], SortByTimestamp(s[1..]))
  }

  /** Sortedness of neighbours gives sortedness of every pair. */
  lemma {:induction false} SortedPairwise(s: seq<Message>)
    requires Sorted(s)
    ensures forall i, j :: 0 <= i <= j < |s| ==> StrLe(s[i].timestamp, s[j].timestamp)
    decreases |s|
  {
    if s != [] {
      SortedPairwise(s[1..]);
      forall i, j | 0 <= i <= j < |s| ensures StrLe(s[i].timestamp, s[j].timestamp) {
        if i == j {
          StrLeTotal(s[i].timestamp, s[i].timestamp);
        } else if i > 0 {
          assert s[i] == s[1..][i - 1] && s[j] == s[1..][j - 1];
        } else if j > 1 {
          assert StrLe(s[1..][0].timestamp, s[1..][j - 1].timestamp);
          StrLeTrans(s[0].timestamp, s[1].timestamp, s[j].timestamp);
        }
      }
    }
  }

  /** A delivery that is already in timestamp order is stored as it is. */
  lemma {:induction false} SortKeepsSorted(s: seq<Message>)
    requires Sorted(s)
    ensures SortByTimestamp(s) == s
    decreases |s|
  {
    if s != [] {
      SortKeepsSorted(s[1..]);
      if |s| > 1 {
        assert s[1..][0] == s[1];
      }
      assert s == [s[0]] + s[1..];
    }
  }

  /** The message documents of one chat, as the backend holds them. */
  function MessagesOf(messages: map<string, seq<Message>>, chatId: string): (r: seq<Message>)
    ensures chatId !in messages ==> r == []
    ensures chatId in messages ==> r == messages[chatId]
  {
    if chatId in messages then messages[chatId] else []
  }
}
