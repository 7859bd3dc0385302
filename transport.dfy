/** The HTTP transport the upload talks to, as the recording mock of the
    tests: a script of replies answered in order and the list of requests
    received. A reply is only success or failure; failure stands for a
    transport error or a non-success status alike. */
module Transport {
  import opened Artifacts

  /** s without its first n elements (empty once n passes the end). */
  function Drop<T>(s: seq<T>, n: nat): (r: seq<T>)
    ensures |r| == if n <= |s| then |s| - n else 0
    ensures forall j :: 0 <= j < |r| ==> r[j] == s[n + j]
  {
    if n <= |s| then s[n..] else []
  }

  /** The j-th reply of a script is a success; a request beyond the end of
      the script gets a failure. */
  predicate ReplyOK(replies: seq<bool>, j: int) {
    0 <= j < |replies| && replies[j]
  }

  /** The first n replies of a script are all successes. */
  predicate AllOK(replies: seq<bool>, n: nat) {
    forall j :: 0 <= j < n ==> ReplyOK(replies, j)
  }

  /** The first m + n replies succeed exactly when the first m do and, once
      those are dropped, the first n of the rest do. */
  lemma AllOKSplit(replies: seq<bool>, m: nat, n: nat)
    ensures AllOK(replies, m + n) <==> AllOK(replies, m) && AllOK(Drop(replies, m), n)
  {
    var rest := Drop(replies, m);
    if AllOK(replies, m) && AllOK(rest, n) {
      forall j | 0 <= j < m + n ensures ReplyOK(replies, j) {
        if j >= m { assert ReplyOK(rest, j - m); }
      }
    }
    if AllOK(replies, m + n) {
      forall j | 0 <= j < n ensures ReplyOK(rest, j) { assert ReplyOK(replies, m + j); }
    }
  }

  /** Dropping twice drops the sum. */
  lemma DropDrop<T>(s: seq<T>, m: nat, n: nat)
    ensures Drop(Drop(s, m), n) == Drop(s, m + n)
  {
  }

  /** httpMock: requestReplies is the script, requestIndex counts the
      requests answered, requests records them in order. */
  class HttpMock {
    var requestReplies: seq<bool>
    var requestIndex: nat
    var requests: seq<Request>

    constructor (replies: seq<bool>)
      ensures requestReplies == replies && requestIndex == 0 && requests == []
    {
      requestReplies, requestIndex, requests := replies, 0, [];
    }

    /** The replies not yet given. */
    function Pending(): seq<bool>
      reads this
    {
      Drop(requestReplies, requestIndex)
    }

    /** SendRequest: records the request, answers with the next scripted
        reply and advances the index. */
    method SendRequest(verb: string, url: string, body: Body) returns (ok: bool)
      modifies this
      ensures requests == old(requests) + [Request(verb, url, body)]
      ensures requestIndex == old(requestIndex) + 1
      ensures requestReplies == old(requestReplies)
      ensures ok == ReplyOK(old(Pending()), 0)
      ensures Pending() == Drop(old(Pending()), 1)
    {
      requests := requests + [Request(verb, url, body)];
      ok := requestIndex < |requestReplies| && requestReplies[requestIndex];
      requestIndex := requestIndex + 1;
    }
  }
}
