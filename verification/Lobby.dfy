/**
  The waiting loop of the authority: peers come and go, each is served once per iteration, and the
  loop ends when exactly the expected number is ready (crates/synctick/src/run_server.rs:209-281).
*/
module Lobby {
  import opened Bytes
  import opened Envelope
  import opened Transfer

  /** What one iteration makes of a set of peers: everyone is served alone, and the refused are gone. */
  function ServedPeers(peers: map<u64, Peer>, save: seq<byte>, md: SaveMetadata,
      rounds: map<u64, Round>): map<u64, Peer>
    requires peers.Keys <= rounds.Keys
  {
    map id | id in peers && ServePeer(peers[id], save, md, rounds[id]).Some?
      :: ServePeer(peers[id], save, md, rounds[id]).value
  }

  function ReadyPeers(peers: map<u64, Peer>): set<u64> {
    set id | id in peers && peers[id].phase == Verified
  }

  /** Everyone not in `todo` has been served, the others not yet. */
  ghost predicate ServedUpTo(
      before: map<u64, Peer>, now: map<u64, Peer>, md: SaveMetadata, save: seq<byte>, rounds: map<u64, Round>,
      sent: map<u64, seq<SaveMessage>>, kept: set<u64>, todo: set<u64>)
    requires before.Keys <= rounds.Keys
  {
    && now.Keys == before.Keys && sent.Keys == before.Keys - todo && kept <= sent.Keys
    && (forall id :: id in todo && id in before ==> now[id] == before[id])
    && (forall id :: id in sent ==> sent[id] == Pump(before[id], save, md, rounds[id].grants).sent)
    && forall id :: id in sent ==>
        var served := ServePeer(before[id], save, md, rounds[id]);
        (id in kept <==> served.Some?) && (id in kept ==> now[id] == served.value)
  }

  lemma ServedAll(
      before: map<u64, Peer>, now: map<u64, Peer>, md: SaveMetadata, save: seq<byte>, rounds: map<u64, Round>,
      sent: map<u64, seq<SaveMessage>>, kept: set<u64>)
    requires before.Keys <= rounds.Keys && ServedUpTo(before, now, md, save, rounds, sent, kept, {})
    ensures kept <= now.Keys && (map id | id in kept :: now[id]) == ServedPeers(before, save, md, rounds)
    ensures sent == map id | id in before :: Pump(before[id], save, md, rounds[id].grants).sent
  {
    hide ServePeer, Pump;
  }

  lemma NothingServedYet(peers: map<u64, Peer>, md: SaveMetadata, save: seq<byte>, rounds: map<u64, Round>)
    requires peers.Keys <= rounds.Keys
    ensures ServedUpTo(peers, peers, md, save, rounds, map[], {}, peers.Keys)
  {
    hide ServePeer, Pump;
  }

  /** Serving one more peer: only its own entry changes. */
  lemma ServedOneMore(
      before: map<u64, Peer>, now: map<u64, Peer>, md: SaveMetadata, save: seq<byte>, rounds: map<u64, Round>,
      sent: map<u64, seq<SaveMessage>>, kept: set<u64>, todo: set<u64>, id: u64, p: Peer,
          messages: seq<SaveMessage>, keep: bool)
    requires before.Keys <= rounds.Keys && todo <= before.Keys && id in todo
    requires ServedUpTo(before, now, md, save, rounds, sent, kept, todo)
    requires messages == Pump(before[id], save, md, rounds[id].grants).sent
    requires keep <==> ServePeer(before[id], save, md, rounds[id]).Some?
    requires keep ==> p == ServePeer(before[id], save, md, rounds[id]).value
    ensures ServedUpTo(before, now[id := p], md, save, rounds, sent[id := messages],
              if keep then kept + {id} else kept, todo - {id})
  {
    hide ServePeer, Pump;
  }

  lemma StillToServe(
      before: map<u64, Peer>, now: map<u64, Peer>, md: SaveMetadata, save: seq<byte>, rounds: map<u64, Round>,
      sent: map<u64, seq<SaveMessage>>, kept: set<u64>, todo: set<u64>)
    requires before.Keys <= rounds.Keys && ServedUpTo(before, now, md, save, rounds, sent, kept, todo)
    ensures now.Keys == before.Keys && forall id :: id in todo && id in before ==> now[id] == before[id]
  {
  }

  class WaitingRoom {
    const expected: nat
    const save: seq<byte>
    const md: SaveMetadata
    var peers: map<u64, StartupPeer>

    constructor (expected: nat, save: seq<byte>, md: SaveMetadata)
      ensures Valid() && AsPeers() == map[]
      ensures this.expected == expected && this.save == save && this.md == md
    {
      this.expected, this.save, this.md := expected, save, md;
      peers := map[];
    }

    /** Every client has a record of its own. */
    ghost predicate Distinct()
      reads this
    {
      forall id, other :: id in peers && other in peers && id != other ==> peers[id] != peers[other]
    }

    ghost predicate Valid()
      reads this, peers.Values
    {
      Distinct() && forall id :: id in peers ==> peers[id].Valid(md, save)
    }

    function AsPeers(): map<u64, Peer>
      reads this, peers.Values
    {
      map id | id in peers :: peers[id].AsPeer()
    }

    /** A full room disconnects the newcomer. */
    method Connect(id: u64, now: nat) returns (admitted: bool)
      requires Valid() && id !in peers && save != [] && md.totalBytes == |save|
      modifies this
      ensures Valid() && admitted == (|old(peers)| < expected)
      ensures AsPeers() == if admitted then old(AsPeers())[id := NewPeer(now)] else old(AsPeers())
    {
      hide PeerAt;
      admitted := |peers| < expected;
      if admitted {
        var peer := new StartupPeer(now);
        NewPeerAt(md, save, now);
        assert Tracked(peer.AsPeer(), md, save);
        peers := peers[id := peer];
      }
    }

    method Leave(id: u64)
      requires Valid()
      modifies this
      ensures Valid() && AsPeers() == old(AsPeers()) - {id}
    {
      hide Tracked;
      peers := peers - {id};
    }

    /** Serve one peer: no other record changes. */
    method ServeOne(id: u64, round: Round) returns (messages: seq<SaveMessage>, keep: bool, ghost after: Peer)
      requires Valid() && id in peers
      modifies peers[id]
      ensures Valid() && AsPeers() == old(AsPeers())[id := after]
      ensures messages == Pump(old(AsPeers())[id], save, md, round.grants).sent
      ensures keep <==> ServePeer(old(AsPeers())[id], save, md, round).Some?
      ensures keep ==> after == ServePeer(old(AsPeers())[id], save, md, round).value
    {
      hide Tracked, ServePeer, Pump;
      messages, keep := peers[id].Serve(md, save, round);
      after := peers[id].AsPeer();
      forall other | other in peers && other != id
        ensures peers[other].AsPeer() == old(peers[other].AsPeer()) && peers[other].Valid(md, save)
      {
        assert peers[other] != peers[id];
      }
    }

    /** Serve every peer once; `kept` are those that need not be disconnected. */
    method ServeEach(rounds: map<u64, Round>) returns (sent: map<u64, seq<SaveMessage>>, kept: set<u64>)
      requires Valid() && peers.Keys <= rounds.Keys
      modifies peers.Values
      ensures Valid() && ServedUpTo(old(AsPeers()), AsPeers(), md, save, rounds, sent, kept, {})
    {
      hide ServePeer, Pump, ServedUpTo, WaitingRoom.Valid;
      ghost var before := AsPeers();
      var todo := peers.Keys;
      sent, kept := map[], {};
      NothingServedYet(before, md, save, rounds);
      assert before.Keys == todo;
      while todo != {}
        invariant todo <= peers.Keys && Valid()
        invariant ServedUpTo(before, AsPeers(), md, save, rounds, sent, kept, todo)
        decreases |todo|
      {
        var id :| id in todo;
        ghost var now := AsPeers();
        StillToServe(before, now, md, save, rounds, sent, kept, todo);
        var messages, keep, after := ServeOne(id, rounds[id]);
        ServedOneMore(before, now, md, save, rounds, sent, kept, todo, id, after, messages, keep);
        sent := sent[id := messages];
        if keep {
          kept := kept + {id};
        }
        todo := todo - {id};
      }
    }

    /** Drop everyone not in `kept`. */
    method Retain(kept: set<u64>)
      requires Valid() && kept <= peers.Keys
      modifies `peers
      ensures Valid() && AsPeers() == map id | id in kept :: old(AsPeers())[id]
    {
      hide Tracked;
      peers := map id | id in peers && id in kept :: peers[id];
    }

    method CountReady() returns (all: bool)
      ensures all <==> |ReadyPeers(AsPeers())| == expected
    {
      var ready := set id | id in peers && peers[id].phase == Verified;
      assert ready == ReadyPeers(AsPeers());
      all := |ready| == expected;
    }

    /** Serve every peer and drop the refused. */
    method ServeAndRetain(rounds: map<u64, Round>) returns (sent: map<u64, seq<SaveMessage>>)
      requires Valid() && peers.Keys <= rounds.Keys
      modifies this, peers.Values
      ensures Valid() && AsPeers() == ServedPeers(old(AsPeers()), save, md, rounds)
      ensures sent == map id | id in old(AsPeers()) :: Pump(old(AsPeers())[id], save, md, rounds[id].grants).sent
    {
      hide Tracked, ServePeer, Pump, ServedUpTo, ServedPeers;
      ghost var before := AsPeers();
      var kept;
      sent, kept := ServeEach(rounds);
      ServedAll(before, AsPeers(), md, save, rounds, sent, kept);
      Retain(kept);
    }

    /** One iteration: serve every peer, drop the refused, and compare the ready count with the expected one. */
    method Iterate(rounds: map<u64, Round>) returns (sent: map<u64, seq<SaveMessage>>, start: bool)
      requires Valid() && peers.Keys <= rounds.Keys
      modifies this, peers.Values
      ensures Valid() && AsPeers() == ServedPeers(old(AsPeers()), save, md, rounds)
      ensures sent == map id | id in old(AsPeers()) :: Pump(old(AsPeers())[id], save, md, rounds[id].grants).sent
      ensures start <==> |ReadyPeers(AsPeers())| == expected
    {
      hide Tracked, ServePeer, Pump, ServedUpTo, ServedPeers, ReadyPeers, WaitingRoom.Valid;
      sent := ServeAndRetain(rounds);
      start := CountReady();
    }
  }
}
