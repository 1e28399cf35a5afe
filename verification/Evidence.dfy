/** What recovery asks before it gives anything back, and which answers allow it. */
module Evidences {
  import opened Prelude
  import opened Records
  import opened Worlds
  import opened Transcripts
  import opened Releases

  /**
   The answers a record's recovery goes by: whether its PeerSwap transaction is
   confirmed, whether the Bitcoin backend knows of its transaction (`None`: it
   cannot tell), and what CLN reported for each peer or channel (`None`: a query
   failed, or the record does not say whom to ask about).
   */
  datatype Evidence = Evidence(confirmed: Option<bool>, seen: Option<bool>, reports: Option<map<string, Status>>)

  const NO_EVIDENCE := Evidence(None, None, None)

  function Texts(items: seq<Json>): Option<seq<string>> {
    if items == [] then Some([])
    else if !items[0].JText? || Texts(items[1..]) == None then None
    else Some([items[0].text] + Texts(items[1..]).value)
  }

  /** Whom CLN is asked about: the channel of a splice, the list of peers, or the one peer. */
  function Subjects(r: RecoveryRecord): Option<seq<string>> {
    if r.operation == SPLICE then
      if "channel_id" in r.identity && r.identity["channel_id"].JText? then Some([r.identity["channel_id"].text]) else None
    else if "peers" in r.identity && r.identity["peers"] != JNull then
      if r.identity["peers"].JList? then Texts(r.identity["peers"].items) else None
    else if "peer_id" in r.identity && r.identity["peer_id"].JText? then Some([r.identity["peer_id"].text])
    else Some([])
  }

  const SPLICE := "splice"

  /** CLN knows of no channel open or splice with any of them. */
  ghost predicate NoneKnown(r: RecoveryRecord, reports: Option<map<string, Status>>) {
    && reports.Some? && Subjects(r).Some?
    && (forall p :: p in reports.value <==> p in Subjects(r).value)
    && (forall p :: p in reports.value ==> reports.value[p] == IsAbsent)
  }

  /**
   The answers that allow a record's leases to be given back: a PeerSwap
   transaction confirmed; any other not seen, if it has an id, and unknown to CLN.
   */
  ghost predicate Cleared(r: RecoveryRecord, e: Evidence) {
    if r.operation == PEERSWAP then PeerSwapEligible(r) && e.confirmed == Some(true)
    else (r.txid.Some? ==> e.seen == Some(false)) && NoneKnown(r, e.reports)
  }

  /** Each operation's record says whom its channels are with. */
  lemma {:induction false} TextsInvert(peers: seq<string>)
    ensures Texts(seq(|peers|, i requires 0 <= i < |peers| => JText(peers[i]))) == Some(peers)
  {
    var items := seq(|peers|, i requires 0 <= i < |peers| => JText(peers[i]));
    if peers != [] {
      TextsInvert(peers[1..]);
      assert items[1..] == seq(|peers[1..]|, i requires 0 <= i < |peers[1..]| => JText(peers[1..][i]));
      assert [peers[0]] + peers[1..] == peers;
    }
  }

  lemma SubjectsOfRecords(r: RecoveryRecord, peer: string, peers: seq<string>, channel: string)
    ensures r.operation == "open_channel" && r.identity == map["peer_id" := JText(peer)] ==> Subjects(r) == Some([peer])
    ensures r.operation == "multi_open_channel"
            && r.identity == map["peers" := JList(seq(|peers|, i requires 0 <= i < |peers| => JText(peers[i])))]
            ==> Subjects(r) == Some(peers)
    ensures r.operation == "splice" && r.identity == map["channel_id" := JText(channel)] ==> Subjects(r) == Some([channel])
  {
    TextsInvert(peers);
    assert |"open_channel"| != |SPLICE| && |"multi_open_channel"| != |SPLICE|;
  }
}
