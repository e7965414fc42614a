/** The durable directory of known peers: the list of remote peer ids kept in
    browser storage so that a reload can reconnect to them, and the own peer id. */
module PeerDirectory {
  import opened Common
  import opened Json

  /** `uniquePeers`: empty ids dropped, then duplicates dropped, first occurrences kept. */
  function UniquePeers(ps: seq<string>): (r: seq<string>)
    ensures NoDup(r)
    ensures "" !in r
    ensures forall p :: p in r <==> p in ps && p != ""
    ensures |r| <= |ps|
  {
    Distinct(Without(ps, ""))
  }

  /** `uniquePeers` keeps the order of first occurrences: the result for a prefix is a
      prefix of the result for the whole list. */
  lemma UniquePeersPrefix(a: seq<string>, b: seq<string>)
    ensures UniquePeers(a) <= UniquePeers(a + b)
  {
    WithoutAppend(a, b, "");
    DistinctPrefix(Without(a, ""), Without(b, ""));
  }

  /** A list that is already duplicate-free and without empty ids is left as it is. */
  lemma UniquePeersOfClean(ps: seq<string>)
    requires NoDup(ps) && "" !in ps
    ensures UniquePeers(ps) == ps
  {
    DistinctOfNoDup(ps);
  }

  lemma UniquePeersIdempotent(ps: seq<string>)
    ensures UniquePeers(UniquePeers(ps)) == UniquePeers(ps)
  {
    UniquePeersOfClean(UniquePeers(ps));
  }

  /** `getItem(key) || ''`: the own peer id from storage, `''` when none is stored. */
  function ReadStoredPeerId(stored: Option<string>): (r: string)
    ensures stored.None? ==> r == ""
    ensures stored.Some? ==> r == stored.value
  {
    if stored.Some? then stored.value else ""
  }

  /** `parsed.filter(value => typeof value === 'string')`. */
  function StringItems(items: seq<Json>): (r: seq<string>)
    ensures forall s :: s in r <==> JStr(s) in items
    ensures |r| <= |items|
  {
    if |items| == 0 then []
    else
      assert items == [items[0]] + items[1..];
      match items[0]
      case JStr(s) => [s] + StringItems(items[1..])
      case _ => StringItems(items[1..])
  }

  /** `readStoredPeers`: nothing stored, text that does not parse, or a value that is
      not an array all read as no peers; otherwise the string items, cleaned. */
  function ReadStoredPeers(stored: Stored): (r: seq<string>)
    ensures NoDup(r) && "" !in r
    ensures !(stored.Parsed? && stored.value.JArr?) ==> r == []
    ensures stored.Parsed? && stored.value.JArr? ==>
              forall p :: p in r <==> p != "" && JStr(p) in stored.value.items
  {
    match stored
    case Parsed(JArr(items)) => UniquePeers(StringItems(items))
    case _ => []
  }

  /** The JSON array of the given ids. */
  function AsJson(ps: seq<string>): (r: seq<Json>)
    ensures |r| == |ps|
    ensures forall i :: 0 <= i < |ps| ==> r[i] == JStr(ps[i])
  {
    if |ps| == 0 then [] else [JStr(ps[0])] + AsJson(ps[1..])
  }

  lemma {:induction false} StringItemsOfAsJson(ps: seq<string>)
    ensures StringItems(AsJson(ps)) == ps
  {
    if |ps| > 0 {
      assert AsJson(ps)[1..] == AsJson(ps[1..]);
      StringItemsOfAsJson(ps[1..]);
      assert ps == [ps[0]] + ps[1..];
    }
  }

  /** `storePeers`: the cleaned list, written as a JSON array of strings in order. */
  function StorePeers(ps: seq<string>): (r: Stored)
    ensures r.Parsed? && r.value.JArr? && |r.value.items| == |UniquePeers(ps)|
    ensures forall i :: 0 <= i < |UniquePeers(ps)| ==> r.value.items[i] == JStr(UniquePeers(ps)[i])
  {
    Parsed(JArr(AsJson(UniquePeers(ps))))
  }

  /** Reading back what was stored gives the cleaned list. */
  lemma ReadAfterStore(ps: seq<string>)
    ensures ReadStoredPeers(StorePeers(ps)) == UniquePeers(ps)
  {
    StringItemsOfAsJson(UniquePeers(ps));
    UniquePeersIdempotent(ps);
  }

  /** Storing the empty list leaves no peer to read back. */
  lemma StoredEmpty()
    ensures ReadStoredPeers(StorePeers([])) == []
  {
    ReadAfterStore([]);
  }

  /** `addStoredPeer`: an empty id or one already listed leaves storage as it is;
      otherwise the id is appended to the list read back. */
  function AddStoredPeer(stored: Stored, peerId: string): (r: Stored)
    ensures peerId == "" ==> r == stored
    ensures peerId != "" ==> peerId in ReadStoredPeers(r)
  {
    if peerId == "" then stored
    else
      var peers := ReadStoredPeers(stored);
      if peerId in peers then stored
      else
        ReadAfterStore(peers + [peerId]);
        StorePeers(peers + [peerId])
  }

  /** `removeStoredPeer`: an empty id leaves storage as it is; otherwise the list read
      back is stored without the id. */
  function RemoveStoredPeer(stored: Stored, peerId: string): (r: Stored)
    ensures peerId == "" ==> r == stored
    ensures peerId !in ReadStoredPeers(r)
  {
    if peerId == "" then stored
    else
      ReadAfterStore(Without(ReadStoredPeers(stored), peerId));
      StorePeers(Without(ReadStoredPeers(stored), peerId))
  }

  /** Adding a non-empty id lists it once, after the ids already listed, which keep
      their order; adding it again changes nothing. */
  lemma AddStoredPeerSpec(stored: Stored, peerId: string)
    ensures peerId == "" ==> AddStoredPeer(stored, peerId) == stored
    ensures peerId != "" ==>
              var before := ReadStoredPeers(stored);
              ReadStoredPeers(AddStoredPeer(stored, peerId))
                == if peerId in before then before else before + [peerId]
    ensures AddStoredPeer(AddStoredPeer(stored, peerId), peerId) == AddStoredPeer(stored, peerId)
  {
    var before := ReadStoredPeers(stored);
    var r := AddStoredPeer(stored, peerId);
    if peerId != "" && peerId !in before {
      var after := before + [peerId];
      assert NoDup(after) && "" !in after;
      ReadAfterStore(after);
      UniquePeersOfClean(after);
      assert ReadStoredPeers(r) == after;
    }
    assert AddStoredPeer(r, peerId) == r;
  }

  /** Removing an id unlists it and keeps every other listed id, in order. */
  lemma RemoveStoredPeerSpec(stored: Stored, peerId: string)
    ensures peerId == "" ==> RemoveStoredPeer(stored, peerId) == stored
    ensures peerId != "" ==>
              ReadStoredPeers(RemoveStoredPeer(stored, peerId)) == Without(ReadStoredPeers(stored), peerId)
    ensures peerId !in ReadStoredPeers(RemoveStoredPeer(stored, peerId))
  {
    if peerId != "" {
      var kept := Without(ReadStoredPeers(stored), peerId);
      ReadAfterStore(kept);
      UniquePeersOfClean(kept);
    }
  }
}
