// Packets, tokens and the state of one daemon, as protocol.c and prot_body.h
// declare them.
module Types {

  const MAX_PACKETS_IN_STRUCT := 8192
  const MAX_SEQ_GAP := 1600
  const TOKEN_BODY_SIZE := 65467
  const RING_RTR_SIZE := 16
  const MAX_WRAP_SEQUENCE_VALUE := 0x4000_0000
  const BLOCK_REGULAR_DELIVERY := 32
  const MAX_PROCS_RING := 128

  type Byte = b: int | 0 <= b < 256

  datatype MembId = MembId(procId: int, time: int)

  datatype Service = Unreliable | Reliable | Fifo | Agreed | Safe

  // The service bit of a packet type; delivery thresholds are compared with it.
  function Level(s: Service): int {
    match s
    case Unreliable => 1
    case Reliable => 2
    case Fifo => 4
    case Agreed => 8
    case Safe => 16
  }

  // What a session hands down: one packet's worth of fragments.
  datatype Payload = Payload(service: Service, fragIndex: int, body: seq<Byte>)

  datatype Packet = Packet(seqNo: int, sender: int, memb: MembId, payload: Payload) {
    // A reliable packet that is a whole message may be delivered out of order.
    predicate Early() {
      payload.service == Reliable && payload.fragIndex == -1
    }
  }

  // The `exist` field of a packet entry: 1, 2 and 3 (0 is an absent entry).
  datatype Slot = Held(p: Packet) | Given(p: Packet) | Hole

  datatype Rtr = Rtr(memb: MembId, proc: int, seg: int, seqs: seq<int>)

  datatype Token = Token(
    from: int, arq: int, retrans: int,
    seqNo: int, aru: int, aruLast: int, flowControl: int, rtr: seq<Rtr>)

  // What a daemon hands up to its sessions.
  datatype Event = Msg(p: Packet) | TransMemb(members: set<int>) | RegMemb(id: MembId)

  // Commit_set: all members, the first `trans` of which are transitional.
  datatype CommitSet = CommitSet(members: seq<int>, trans: int)

  // The fixed surroundings of a ring: n daemons in token order, the position of
  // the leader, segments, and the flow control windows.
  datatype Ring = Ring(
    n: int, lead: int, seg: seq<int>,
    window: int, personal: seq<int>, accelerated: bool, acceleratedWindow: int)

  datatype Dstate = Dstate(
    me: int, memb: MembId, evs: bool, justInstalled: bool,
    aru: int, myAru: int, highest: int, discarded: int, delivered: int,
    pk: map<int, Slot>,
    last: Token,
    numRetrans: int, numSent: int, counter: int, threshold: int,
    queue: seq<Packet>,
    log: seq<Event>,
    lastSeq: int, future: MembId, commit: CommitSet, futureCommit: CommitSet,
    fault: bool)
}
