# The Spread daemon: ordering, recovery and groups

Spread is a group communication daemon.  Daemons pass a token around a ring; the
token gives out sequence numbers, carries retransmission requests, and tells
every daemon up to which packet all have everything.  When the ring breaks, the
survivors agree on what is missing, recover the rest, and install a new ring.
On top of this every daemon keeps the process groups and exchanges them with
daemons it had been apart from.  This project models these parts of Spread 4.4.0
and proves what they promise.

`dafny verify dfyconfig.toml` checks everything.

## How it is built

The C code works on global state, in place, with loops.  Each part therefore
appears twice:

* as classes and methods with the fields, arrays and loops of the C code
  (`DaemonClass`, `FormMethods`, `PackingMethods`, `Conf`, `GroupBufferMethods`,
  `GroupSteps`, `GroupClass`), each method proved to change the state as a
  function on values says;
* as those functions (`Protocol`, `Form`, `FormToken`, `Evs`, `Packing`,
  `Groups`, `GroupCodec`, `GroupBuffers`, `GroupParts`), about which the
  properties are proved, for all inputs and over all runs.

The methods of a daemon ask for what the ring provides: numbers within a window
of 8192, and counters in order.  `DaemonInRing` shows that every run of a ring
provides it, at every moment, for every packet and every accepted token.

A branch that ends the process (EXIT, FATAL) sets a flag `fault`; the theorems
say when it cannot be set.  Three transition systems put daemons together:

* **A ring in normal operation** (`OpRing`, invariant in `OpInv`, steps in
  `OpSafety`, results in `OpTheorems`, `OpWindows` and `OpInTurn`).  Any number
  of daemons; tokens and packets once sent may arrive any number of times, in any
  order, or never; the leader may send the last token again; delivery events,
  flushes, threshold changes and requests to hurry may happen at any time.  The
  core is `TokenHistory`: a lemma about the sequence of visits, which turns the
  minimum of two successive arus into a statement about all daemons.
  `OpProgress` says that nothing is delivered later than it may be, `OpRepeat`
  that a lost token comes back, and `PackedServices` what the services of packets
  mean for the messages in them.
* **Recovery** (`EvsRing`, `EvsInv`, `EvsSafety`, `EvsTheorems`).  The daemons
  of any number of old rings, after the FORM2 token, with old-ring packets still
  being received and asked for.  `FormRecords` shows what the records on the
  FORM1 token mean, `FormToken` who is on the list of the FORM2 token it becomes,
  `OpToForm` that every run of a ring leaves its members as these proofs need
  them, `FormEvs` and `FormToEvs` that the records let everybody into recovery,
  `FormAttempts` that attempts may fail any number of times before, `Evs` that all
  deliver the same, `EvsContents` which packets that are, `EvsSignal` who is in the
  transitional membership, `EvsProgress` how soon recovery ends, and `EvsToOp` that
  the ring that comes out is an initial state of the first system: the circle
  closes.
* **The state exchange of the groups** (`GroupExchange`).  `GroupBookkeeping`
  has the invariant of one daemon over all handlers, `GroupReplicas` that daemons
  which agree go on agreeing outside the exchange, `GroupStart` when a membership
  needs the exchange and what it starts from, `GroupView` the agreement of daemons
  in GGATHER, `GroupCascade` that of all daemons when the membership
  breaks during the exchange, `GroupDelivery` that the handlers follow the
  exchange, and `GroupEndToEnd` carries agreement down to the bytes of the
  messages.

## Where the code does less than it says

The comment at groups.c:888-893 has it that marking groups as changed in GGT costs
no more than some notifications.  Once the waiting transitional membership has
been handled that is so: the marks make no difference then
(`GroupCascade.CascadeCommutes`).  In between they do:
G_compute_and_notify gives a marked group a new id that daemons in GGATHER do not
give it. `GroupCascade.EarlyIds` says exactly for which groups the ids differ, and
`EarlyIdsDiffer` gives an input.

The pair (membership, index) that identifies a group tells its member lists apart
as long as the group exists (`GroupReplicas.IdTellsApart`), and no longer: a group
that loses its last member and is joined again starts with index 1
(`GroupReplicas.IdStartsOver`).

## What is taken for granted

* No token arrives that is 16 or more rounds old.  `RoundNumberWraps` shows that
  the code needs such a bound: a copy that is 16 rounds old is accepted.
* No packet of an old ring above the agreed highest_seq arrives once a daemon
  has answered the FORM1 token, and no daemon restarts between FORM1 and FORM2.
  The code relies on timing for both.
* Daemon ids are unique, no daemon accepts one FORM1 token twice, and the list of
  a representative starts with itself. The code ensures the last two by leaving
  the state (membership.c:2027) and when it starts a list (916-918, 1390-1424).
* Personal windows are at most 8192 - 1600 where the packet buffer is concerned,
  and windows are fixed while a ring lasts.
* For the agreement of groups: no two sets hold the same unchanged group under one
  membership id.  That the members of one synced set start with the same group
  lists follows from `GroupReplicas.ReplicasAgree`.
* For the token to come back: repetitions are counted in 4 bits, and the leader's
  count has not gone round since the token was sent (`OpRepeat.CountsStay`); and
  the numbers of the ring have not reached MAX_WRAP_SEQUENCE_VALUE, from where on
  daemons drop the token on purpose.
* A message given to G_mess_to_groups is well-formed; the C code does not check.

Numbers are unbounded integers; sequence numbers stop at
MAX_WRAP_SEQUENCE_VALUE, round numbers are modulo 16, and the lengths in
fragment headers and group messages have their 16 or 32 bits.

## Model

| member | source | states |
|---|---|---|
| `OpTheorems.Stability` | spread-src-4.4.0/daemon/protocol.c:811-833 | In every run of a ring, the `Aru` of each daemon (the minimum of the arus of the last two tokens it sent) is at most the `My_aru` of every daemon: a local rule, a global fact. |
| `OpTheorems.SafeDelivery` | spread-src-4.4.0/daemon/protocol.c:1758-1775 | In every run, a SAFE packet that one daemon has delivered is one that every daemon of the ring has delivered or holds. |
| `OpTheorems.NoFatal` | spread-src-4.4.0/daemon/protocol.c:809-833 | In every run no daemon reaches an EXIT or FATAL branch of the routines modelled, in particular not the two for lowering Aru, the retransmission request below Aru and the hole met by delivery or discarding. |
| `OpTheorems.AruNeverFalls` | spread-src-4.4.0/daemon/protocol.c:811-833 | `Aru` never goes down at any daemon, over any stretch of any run. |
| `OpTheorems.DeliveryOrder` | spread-src-4.4.0/daemon/protocol.c:1515-1585 | In every run each daemon delivers each packet at most once, only packets of its ring, and those that are not early RELIABLE ones exactly in the order of their numbers, without a gap, up to `Last_delivered`. |
| `OpTheorems.TotalOrder` | spread-src-4.4.0/daemon/protocol.c:1548-1585 | What any two daemons have delivered in order are prefixes of one another. |
| `OpTheorems.TokenRounds` | spread-src-4.4.0/daemon/protocol.c:581-645 | Whatever copies of tokens are lost, repeated or late, a daemon accepts only the newest token, only when it is its turn, one round after its last visit; and token t is sent by daemon t mod n. |
| `OpTheorems.RoundNumberWraps` | spread-src-4.4.0/daemon/protocol.c:618-624 | How far the 4-bit number carries: among the tokens of its predecessor a daemon accepts exactly those whose age is a multiple of 16 rounds. So the bound on the age of copies is what the code needs. |
| `OpTheorems.UniqueNumbers` | spread-src-4.4.0/daemon/protocol.c:1115-1116 | Every packet of the ring on the network is the one packet with its number, and the numbers given out are 1, 2, ... up to the `seq` of the newest token. |
| `OpTheorems.HeldToken` | spread-src-4.4.0/daemon/protocol.c:782-800 | What it means that the leader keeps an accepted token: nothing was sent on this visit, every daemon already has every packet of the ring, no token went out, and the hurry step that the leader may take puts exactly the token it kept on the network. |
| `OpInTurn.NothingEarly` | spread-src-4.4.0/daemon/protocol.c:1515-1541 | A daemon whose threshold has been above RELIABLE since the ring started has delivered exactly packets 1, 2, ... one after the other, RELIABLE ones included: no run of the ring hands it anything early. |
| `OpProgress.NothingHeldBack` | spread-src-4.4.0/daemon/protocol.c:1548-1585 | In every run: from the moment a daemon's delivery loop has run with a threshold of at most AGREED, and as long as it stays there, the daemon has at every moment delivered everything in sequence, up to `My_aru` or to the first SAFE packet that is not stable. |
| `OpProgress.MyAruExact` | spread-src-4.4.0/daemon/protocol.c:700-706 | In every run `My_aru` stands exactly before the first number the daemon misses. |
| `OpProgress.SafeProgress` | spread-src-4.4.0/daemon/protocol.c:811-833 | What every daemon has in sequence at one moment, SAFE or not, each daemon has delivered two rounds of the token later. |
| `OpProgress.OwnEarlyAtOnce` | spread-src-4.4.0/daemon/protocol.c:848 | A RELIABLE packet that is a whole message is delivered at its own daemon on the visit that sends it. |
| `OpProgress.HeldExactly` | spread-src-4.4.0/daemon/protocol.c:782-800 | The leader keeps an accepted token if and only if everything was stable on its last two visits, is stable still with nothing new, and the token was not asked for twice. |
| `OpProgress.NumbersEnd` | spread-src-4.4.0/daemon/protocol.c:573-579 | A ring gives out at most one personal window of numbers beyond MAX_WRAP_SEQUENCE_VALUE. |
| `OpRepeat.RepeatsExactly` | spread-src-4.4.0/daemon/protocol.c:600-645 | On a recent token a daemon sends its last token again exactly if it is not the leader, the token is the one it has handled last, and it has been repeated more often than the daemon had heard of. |
| `OpRepeat.LostTokenComesBack` | spread-src-4.4.0/daemon/protocol.c:1835-1871 | In every run, whatever copies of the newest token are lost: once the leader repeats its last token, the ring can go on, without any visit or packet, to a state in which the newest token is on the network and the daemon whose turn it is accepts it. |
| `OpRepeat.CountsStay` | spread-src-4.4.0/daemon/protocol.c:1835-1871 | In every run in which the leader's 4-bit count has not gone round, nobody who had the token since has counted further: the premise of LostTokenComesBack. |
| `OpWindows.SequenceGap` | spread-src-4.4.0/daemon/flow_control.c:68-80 | In every run, at every daemon, `Highest_seq - Last_discarded` is at most MAX_SEQ_GAP plus the largest personal window. |
| `OpWindows.NoAliasing` | spread-src-4.4.0/daemon/protocol.c:361-373 | With personal windows of at most 8192 - 1600 no two packets a daemon can hold or get, and has not freed, share an entry of the packet buffer. |
| `DaemonInRing.AlwaysValid` | spread-src-4.4.0/daemon/flow_control.c:68-80 | With these windows, at every moment of every run each daemon is in a state that its methods accept: counters in order, all entries within 8192 numbers. |
| `DaemonInRing.ReceiptFits` | spread-src-4.4.0/daemon/protocol.c:361-373 | Every packet of the ring that arrives is an old one, or its number is in the window of the buffer. |
| `DaemonInRing.AcceptedFits` | spread-src-4.4.0/daemon/protocol.c:991-1086 | A token that is accepted has its number within the buffer, and asks for numbers of this ring only within it. |
| `DaemonClass.Daemon.ValueForm` | spread-src-4.4.0/daemon/protocol.c:361-373 | What the methods of the class ask of their object is what DaemonInRing shows of the states of a ring: the two forms are the same condition. |
| `OpWindows.FlowControl` | spread-src-4.4.0/daemon/protocol.c:687-698 | In every run the `flow_control` of the newest token is the sum of all `Last_num_retrans` and `Last_num_sent`; and all `Last_num_sent` together stay within Window + Personal_window, however many retransmissions there are. |
| `OpWindows.AllowedIsMost` | spread-src-4.4.0/daemon/flow_control.c:68-80 | Outside EVS and within the sequence gap, the largest number that is within the window, within the personal window, and leaves `flow_control` within both together, or 0 if there is none; otherwise 0. |
| `OpWindows.SendsMost` | spread-src-4.4.0/daemon/protocol.c:687-698 | Whatever number of packets the windows admit, a visit sends that many if it has them. |
| `OpWindows.Retransmission` | spread-src-4.4.0/daemon/protocol.c:991-1086 | Each own-ring request on an accepted token is above the `Aru` of the daemon and names a packet already broadcast; the daemon rebroadcasts it if it holds it, and otherwise, if the body has room, it is on its own list, or that list is full. |
| `OpWindows.MissingAll` | spread-src-4.4.0/daemon/protocol.c:732-741 | A missing number in range is on the request list unless the list is full. |
| `OpWindows.AnswersAll` | spread-src-4.4.0/daemon/protocol.c:1016-1068 | Every own-ring request for a packet that is held is answered. |
| `OpWindows.AsksForMissing` | spread-src-4.4.0/daemon/protocol.c:709-743 | In every run a daemon that accepts the token asks for every number it misses in range; on an accelerated ring the range ends at the `seq` of its last visit. The answers are wanted for itself, or for its segment, only if no request that it leaves open needs them elsewhere. |
| `TokenVisit.AnswerAddress` | spread-src-4.4.0/daemon/protocol.c:1062-1066 | Whom the answers to the own requests will be for: the daemon alone exactly if no own-ring request that came is left open, its segment alone exactly if none from another segment is. |
| `OpWindows.RequestsFit` | spread-src-4.4.0/daemon/protocol.c:709-743 | The request lists fit into the body of the token, and a list is cut short only where one more number would not fit. |
| `OpWindows.TokenFits` | spread-src-4.4.0/daemon/protocol.c:709-743 | So a token whose requests fit leaves with requests that fit. |
| `OpSafety.RunInvAt` | spread-src-4.4.0/daemon/protocol.c:503-881 | The ring invariant holds at every state of every run: token history, copies in the network, the buffer and counters of each daemon, requests, broadcasts. |
| `OpSafety.StepKeeps` | spread-src-4.4.0/daemon/protocol.c:503-881 | Every step of the ring keeps the invariant: token arrival, packet receipt, delivery events, hurry, the reset of the counter on a request to hurry, flush of the queue, threshold change. |
| `OpInv.AcceptedIsNext` | spread-src-4.4.0/daemon/protocol.c:556-645 | The checks on transmitter and round number let through only the newest token, at the daemon whose turn it is. |
| `OpInv.AcceptKeeps` | spread-src-4.4.0/daemon/protocol.c:642-848 | Handling an accepted token keeps the ring invariant. |
| `TokenHistory.StableBelowMy` | spread-src-4.4.0/daemon/protocol.c:762-769 | For any history of visits that follow the rule for setting aru: the minimum of two successive arus of one daemon is at most the My_aru of any daemon that was visited in between or since. |
| `TokenHistory.StableMonotone` | spread-src-4.4.0/daemon/protocol.c:762-769 | The minimum of two successive arus never falls from visit to visit. |
| `TokenHistory.StableReaches` | spread-src-4.4.0/daemon/protocol.c:762-769 | From any visit on: what everybody has reached, the minimum that each daemon computes has reached two rounds later. |
| `TokenVisit.VisitKeeps` | spread-src-4.4.0/daemon/protocol.c:642-848 | One visit keeps the invariant of buffer, counters and log, gives the new packets their numbers, and leaves `Aru` as the minimum of the last two arus. |
| `TokenVisit.QueueBcastFifo` | spread-src-4.4.0/daemon/protocol.c:1262-1331 | With or without the accelerated ring, nothing overtakes and nothing is lost: what went out followed by the queue is the old queue followed by the packet. |
| `TokenVisit.QueueBcastHoldsBack` | spread-src-4.4.0/daemon/protocol.c:1262-1331 | On an accelerated ring outside EVS, Min(|queue| + 1, accelerated window) packets stay queued, the last ones; otherwise none does. |
| `TokenVisit.VisitHoldsBack` | spread-src-4.4.0/daemon/protocol.c:1333-1354 | Of the k new packets of a visit, the last Min(k, accelerated window) are left for the flush after the token, and the others have gone out before it. |
| `TokenVisit.AnswerAllNoFault` | spread-src-4.4.0/daemon/protocol.c:1025-1026 | If no own-ring request is below Aru, the EXIT of Answer_retrans is not taken, and requests of other rings are passed on. |
| `Delivery.ReceiveKeeps` | spread-src-4.4.0/daemon/protocol.c:478-492 | Receiving any packet of the ring, in any order, again or late, keeps the invariant of buffer, counters and delivery log, in normal operation and in recovery. |
| `Delivery.DiscardRegularKeeps` | spread-src-4.4.0/daemon/protocol.c:1758-1775 | Discarding up to Aru meets no missing entry, delivers what was still held in order, and keeps the invariant. |
| `Delivery.AgreedLoopKeeps` | spread-src-4.4.0/daemon/protocol.c:1559-1583 | Agreed delivery keeps the invariant and does not fault. |
| `Delivery.ReliableLoopKeeps` | spread-src-4.4.0/daemon/protocol.c:1527-1539 | Early delivery of RELIABLE packets keeps the invariant: no packet is delivered twice. |
| `Delivery.AgreedDelivers` | spread-src-4.4.0/daemon/protocol.c:1548-1585 | Outside EVS, with a threshold of at most AGREED, nothing is held back: Last_delivered is `My_aru`, or a SAFE packet comes next; and every packet up to Last_delivered is in the log. |
| `Delivery.LoopStops` | spread-src-4.4.0/daemon/protocol.c:1559-1583 | Agreed delivery does not touch what it does not deliver. |
| `Delivery.ReliableDelivers` | spread-src-4.4.0/daemon/protocol.c:1515-1541 | Early delivery leaves in its range no packet that may be delivered early, and changes nothing outside. |
| `Delivery.EarlyOnReceipt` | spread-src-4.4.0/daemon/protocol.c:478-492 | A RELIABLE packet that is a whole message is delivered when it comes if and only if it is out of sequence, or in sequence with no SAFE packet waiting before it. |
| `Delivery.ReceiptStays` | spread-src-4.4.0/daemon/protocol.c:346-492 | A packet of the ring that is not old is in the buffer when it has been received, with all that were there; `Highest_seq` and `My_aru` are exact. |
| `OpTheorems.EveryRingStarts` | spread-src-4.4.0/daemon/protocol.c:581-645 | Every ring has an initial state, and in it the daemon after the first accepts the token, whatever it has to send: the statements about runs are not empty. |
| `PacketBuffer.ViewAt` | spread-src-4.4.0/daemon/protocol.c:368-373 | Within a window of 8192 numbers the entry `seq & PACKET_MASK` holds a packet exactly when the buffer, read as a map from numbers, has that number; and it is the same packet. |
| `PacketBuffer.ViewStore` | spread-src-4.4.0/daemon/protocol.c:427-430 | Storing in an entry changes that one number of the map and no other. |
| `PacketBuffer.ViewSlide` | spread-src-4.4.0/daemon/protocol.c:1758-1775 | The window may move up past entries that are empty without changing the map. |
| `DaemonClass.Daemon.At` | spread-src-4.4.0/daemon/protocol.c:368-370 | `Packets[seq & PACKET_MASK]`: for a number in the window, the entry is full exactly if the buffer has that number, and holds that packet. |
| `DaemonClass.Daemon.Store` | spread-src-4.4.0/daemon/protocol.c:427-430 | Writing the entry of a number in the window adds it to, or removes it from, the map of packets. |
| `DaemonClass.Daemon.DeliverPacket` | spread-src-4.4.0/daemon/protocol.c:1356-1508 | Hands the packet up and marks its entry as delivered. |
| `DaemonClass.Daemon.DeliverAgreed` | spread-src-4.4.0/daemon/protocol.c:1548-1585 | The loop with its threshold and state tests leaves the state that the reference recursion gives, of which AgreedDelivers says that it holds nothing back, including its two exits. |
| `DaemonClass.Daemon.DeliverReliable` | spread-src-4.4.0/daemon/protocol.c:1515-1541 | The loop over a range of numbers delivers exactly the early RELIABLE packets held there. |
| `DaemonClass.Daemon.AdvanceMyAru` | spread-src-4.4.0/daemon/protocol.c:700-706 | Moves `My_aru` over the entries that exist, and no further. |
| `DaemonClass.Daemon.HandleBcast` | spread-src-4.4.0/daemon/protocol.c:346-492 | A regular packet: foreign, old and duplicate ones change nothing; any other is stored, `Highest_seq` and `My_aru` follow, and delivery is tried. |
| `DaemonClass.Daemon.FcAllowed` | spread-src-4.4.0/daemon/flow_control.c:68-80 | How many new packets may be sent: the most that the windows admit, or none; none in EVS or past the sequence gap. |
| `DaemonClass.Daemon.QueueBcast` | spread-src-4.4.0/daemon/protocol.c:1262-1331 | On an accelerated ring outside EVS the last Min(|queue| + 1, accelerated window) packets stay queued and those before them go out; otherwise all go out. |
| `DaemonClass.Daemon.SendPacket` | spread-src-4.4.0/daemon/protocol.c:1104-1257 | One new packet takes the next number, goes to the send queue and into its entry; an occupied entry is an exit. |
| `DaemonClass.Daemon.SendNewPackets` | spread-src-4.4.0/daemon/protocol.c:1102-1259 | As many of the waiting payloads as are allowed become packets, in order. |
| `DaemonClass.Daemon.DiscardRegular` | spread-src-4.4.0/daemon/protocol.c:1758-1775 | Discard_packets in normal operation: everything up to `Aru` is delivered if it was not and freed; a missing entry is an exit. |
| `DaemonClass.Daemon.BeforeTrans` | spread-src-4.4.0/daemon/protocol.c:1610-1635 | The first loop of Discard_packets in EVS: deliver up to the first hole or SAFE packet. |
| `DaemonClass.Daemon.AfterTrans` | spread-src-4.4.0/daemon/protocol.c:1642-1676 | The second loop: deliver the rest; beyond a hole only what committed members sent. |
| `DaemonClass.Daemon.Regular` | spread-src-4.4.0/daemon/membership.c:2580-2619 | Memb_regular: the future membership becomes the membership, the commit set is the daemon alone, and the membership is delivered. |
| `DaemonClass.Daemon.Install` | spread-src-4.4.0/daemon/protocol.c:1712-1754 | A daemon that has freed every entry starts the next membership with its counters at zero. |
| `DaemonClass.Daemon.DiscardEvs` | spread-src-4.4.0/daemon/protocol.c:1595-1755 | Discard_packets in EVS: nothing until `Aru == Last_seq`; then deliver, signal, deliver, and install. |
| `DaemonClass.Daemon.AnswerList` | spread-src-4.4.0/daemon/protocol.c:1018-1068 | The answers to one list of requests, the counter, and where the daemon's own requests will be sent back to. |
| `DaemonClass.Daemon.AnswerRetrans` | spread-src-4.4.0/daemon/protocol.c:991-1086 | Requests of the own ring are answered, those of others copied; a request below Aru is an exit. |
| `DaemonClass.Daemon.OwnRequests` | spread-src-4.4.0/daemon/protocol.c:709-743 | The request list this daemon adds: the numbers it misses, as many as fit, behind those of other rings. |
| `DaemonClass.Daemon.NewAru` | spread-src-4.4.0/daemon/protocol.c:811-833 | Aru becomes the smaller of the arus of the last two tokens sent; lowering it is an exit. |
| `DaemonClass.Daemon.Settle` | spread-src-4.4.0/daemon/protocol.c:811-848 | From the calculation of Aru to the end: counter, last token, discarding, delivery. |
| `DaemonClass.Daemon.Raise` | spread-src-4.4.0/daemon/protocol.c:589-645 | The token raises `Highest_seq`; the first one after an installation removes the EVS aru from the last token. |
| `DaemonClass.Daemon.SendAndAdvance` | spread-src-4.4.0/daemon/protocol.c:687-706 | New packets within flow control, the two flow-control counters, `My_aru`. |
| `DaemonClass.Daemon.Complete` | spread-src-4.4.0/daemon/protocol.c:745-752 | In EVS, once `My_aru == Highest_seq`, `My_aru` becomes `Last_seq` and the daemon commits. |
| `DaemonClass.Daemon.Fill` | spread-src-4.4.0/daemon/protocol.c:754-780 | The token as it leaves: flow control, aru and its owner by the three-way rule, seq, round number. |
| `DaemonClass.Daemon.FlushBcast` | spread-src-4.4.0/daemon/protocol.c:1333-1354 | The send queue goes out in order and is empty. |
| `DaemonClass.Daemon.TakeToken` | spread-src-4.4.0/daemon/protocol.c:642-848 | An accepted token: the whole new state, the token sent on, whether it is sent now, and every packet put on the network, in order. |
| `DaemonClass.Daemon.TokenHurry` | spread-src-4.4.0/daemon/protocol.c:1835-1871 | The last token again, with its retransmission count; the leader counts up. |
| `DaemonClass.Daemon.HandleHurry` | spread-src-4.4.0/daemon/protocol.c:1817-1833 | Only a leader that holds the token, asked by a member of the ring, does anything: its counter goes to zero and the last token goes out again. |
| `DaemonClass.Daemon.HandleToken` | spread-src-4.4.0/daemon/protocol.c:573-848 | Every token: swallowed, answered with the last one, or accepted; in each case the whole new state and what goes out. |
| `DaemonClass.Daemon.SetDeliveryThreshold` | spread-src-4.4.0/daemon/protocol.c:1937-1989 | Sets the threshold; an illegal service is fatal. A delivery loop that the change lets go on gets its event queued, one that the change holds back has it removed. |
| `DaemonClass.AgreedQueue` | spread-src-4.4.0/daemon/protocol.c:1548-1585 | Agreed delivery does not look at the send queue, so the queue may be emptied before or after it. |
| `FormRecords.HoleAgreement` | spread-src-4.4.0/daemon/membership.c:1824-1970 | Folding the daemons of any number of rings, in any order of visits: for each ring the record has the maximum aru and highest_seq of its members, as holes exactly the numbers none of them had when visited, as transitional list exactly the members visited, in front of a commit list that contains all their commit sets. No exit is taken. |
| `FormRecords.MergedOK` | spread-src-4.4.0/daemon/membership.c:1874-1970 | Merging one more member into a record keeps it right. |
| `FormRecords.NewRecordOK` | spread-src-4.4.0/daemon/membership.c:1457-1510 | The first record of a ring is right for its one member. |
| `OpToForm.SnapshotStability` | spread-src-4.4.0/daemon/protocol.c:811-833 | Stability for daemons looked at at different times: the earlier Aru of one against the My_aru another had when it stopped. |
| `OpToForm.RunsAreVisitable` | spread-src-4.4.0/daemon/membership.c:1786-1787 | The states in which the FORM1 token finds the members of a ring, at whatever moments of a run they stopped, are as HoleAgreement and FormReady ask. |
| `OpToForm.RunOwn` | spread-src-4.4.0/daemon/protocol.c:1250-1254 | In every run each daemon still has, or has delivered, every packet it sent. |
| `FormToken.FormProgress` | spread-src-4.4.0/daemon/membership.c:1627-1720 | Each accepted hop of the FORM1 token lowers (representatives left, pending members) lexicographically, keeps the rest of the token in shape, and moves its seq above this daemon's. |
| `FormToken.JourneyEnds` | spread-src-4.4.0/daemon/membership.c:1985-2011 | So with member lists of bounded length the journey has a bounded number of hops. |
| `FormToken.FormMembers` | spread-src-4.4.0/daemon/membership.c:1999-2011 | The last hop, also one that takes the daemon off the list: the FORM2 token has the members that the hop leaves, as a permutation, in configuration order, all pending again. |
| `FormToken.JourneyLists` | spread-src-4.4.0/daemon/membership.c:1627-1720 | At every point of a journey the visited part of the member list is the daemons visited so far whose records are on the token, in the order of the visits; the number of the token is above the `Highest_seq` of each of them. |
| `FormToken.FormedOfVisited` | spread-src-4.4.0/daemon/membership.c:1390-2011 | From the creation to FORM2, whatever representatives and members it visits: the member list is a permutation of exactly the daemons visited whose records are on the token, the number is above the `Highest_seq` of all visited, and the records are the fold over the visits, which did not fault. |
| `FormToken.AddsItsMembers` | spread-src-4.4.0/daemon/membership.c:1649-1690 | A representative adds those of its list who are not on the token, and are neither representatives there nor in its own list, itself excepted. |
| `FormToken.LeftOutOnlyFull` | spread-src-4.4.0/daemon/membership.c:1790-1815 | A daemon is left out exactly if its ring is not on the token and there is no room for one more ring. |
| `FormToken.EveryoneListed` | spread-src-4.4.0/daemon/membership.c:1790-1815 | If those visited come from at most MAX_FORM_REPS rings, the list has all of them, in the order of the visits. |
| `FormToken.EveryRepVisited` | spread-src-4.4.0/daemon/membership.c:1985-1997 | When the token becomes FORM2, every representative that was still to be visited when it was created has been visited. |
| `FormToken.SentToTheOne` | spread-src-4.4.0/daemon/membership.c:1985-1997 | Each hop sends the token to the one daemon that can accept it. |
| `FormToken.SortMembersSorts` | spread-src-4.4.0/daemon/membership.c:1325-1341 | Sorting by repeated selection gives a permutation in configuration order. |
| `FormToken.JourneyRecords` | spread-src-4.4.0/daemon/membership.c:1737-1775 | The records the token carries are the fold over the daemons of the journey, so HoleAgreement speaks about them. |
| `FormMethods.Members.Insert` | spread-src-4.4.0/daemon/membership.c:1148-1168 | A new member goes to the end unless it is there or the list is full. |
| `FormMethods.SmallestMember` | spread-src-4.4.0/daemon/membership.c:1255-1282 | The index of the first member with the lowest place; unknown members are an exit. |
| `FormMethods.SortMembers` | spread-src-4.4.0/daemon/membership.c:1325-1341 | The list becomes the sorted list of FormToken.SortMembers, in place. |
| `FormMethods.Holes` | spread-src-4.4.0/daemon/membership.c:1461-1477 | The numbers without an entry, in order. |
| `FormMethods.StillMissing` | spread-src-4.4.0/daemon/membership.c:1888-1905 | Those of the recorded holes that this daemon misses, too. |
| `FormMethods.NewRecord` | spread-src-4.4.0/daemon/membership.c:1822-1873 | The record of a ring the token does not know yet. |
| `FormMethods.MergeRecord` | spread-src-4.4.0/daemon/membership.c:1874-1971 | The record of a known ring with this daemon merged in, and the exit for a wrong transitional set. |
| `FormMethods.FillRings` | spread-src-4.4.0/daemon/membership.c:1737-1971 | Other rings are copied, the own one comes last; a ring for which there is no more room leaves the daemon out. |
| `FormMethods.MarkHoles` | spread-src-4.4.0/daemon/membership.c:2207-2243 | The holes on record become dummy packets, with the three fatal checks. |
| `FormMethods.Enter` | spread-src-4.4.0/daemon/membership.c:2198-2331 | What the daemon takes over from its record, and the state it enters recovery with. |
| `FormMethods.ReadForm2` | spread-src-4.4.0/daemon/membership.c:2096-2331 | A malformed record or a token without this ring changes nothing; otherwise as Enter. |
| `FormMethods.ClearHoles` | spread-src-4.4.0/daemon/membership.c:2496-2504 | Dummy packets are removed, all others stay. |
| `FormMethods.Backoff` | spread-src-4.4.0/daemon/membership.c:2488-2518 | Aru and My_aru are worked out again from what is in the buffer. |
| `Evs.EnterKeeps` | spread-src-4.4.0/daemon/membership.c:2198-2331 | A daemon whose record is right enters recovery without a fatal branch: the discarding meets no missing packet, no hole is held by it, and the recovery invariant holds. |
| `Evs.DiscardEvsDelivers` | spread-src-4.4.0/daemon/protocol.c:1596-1754 | What a daemon delivers by the end of recovery is given by the packets of the ring, the record and the new membership alone; it ends with an empty buffer, counters at zero, no exit. |
| `Evs.EvsAgreement` | spread-src-4.4.0/daemon/protocol.c:1596-1676 | Two members of an old ring that finish recovery from one record have delivered the same packets of it in the same order, with the transitional signal and the membership in the same places, whatever each had delivered before. |
| `FormEvs.FormReady` | spread-src-4.4.0/daemon/membership.c:2198-2251 | If the records are those of the visited members, every one of them may enter recovery: stability gives that no discarded packet is missing, and no hole was sent by a future member. |
| `FormEvs.LaterReceive` | spread-src-4.4.0/daemon/protocol.c:346-492 | What a daemon receives while the membership is formed, up to the agreed highest_seq, does not harm that. |
| `FormToEvs.StaysReady` | spread-src-4.4.0/daemon/membership.c:2024-2025 | With delivery blocked, whatever packets of the ring up to the agreed highest_seq, or of other rings, come in between FORM1 and FORM2, the daemon stays a member whose buffer and log are right. |
| `FormToEvs.JourneyConcludes` | spread-src-4.4.0/daemon/membership.c:1625-2011 | What recovery asks of a FORM2 token every journey provides, for every ring: its number is above those of the members found, and a sender of the ring that is on the list has been visited. |
| `FormToEvs.MembersEnterRecovery` | spread-src-4.4.0/daemon/membership.c:2096-2331 | For every journey of a FORM1 token and any members of an old ring it found, whatever they received since: Read_form2 does not fault, and the member is in the state recovery starts from, or has dropped a token with a malformed record. |
| `FormToEvs.RecoveryStarts` | spread-src-4.4.0/daemon/membership.c:2290-2306 | Daemons that have entered recovery, with the first regular token of the new membership, make up an initial state of the recovery system. |
| `FormEvs.CommitGrows` | spread-src-4.4.0/daemon/membership.c:2520-2523 | Committing to the record of a later attempt loses no member of the commit set; and the transitional list is a prefix of the commit list with the daemon in it. |
| `FormEvs.BackoffRestores` | spread-src-4.4.0/daemon/membership.c:2488-2518 | A failed attempt leaves an ordinary member of the old ring that has every packet it had, the holes gone. |
| `FormAttempts.RunTried` | spread-src-4.4.0/daemon/membership.c:2290-2331 | In every run of recovery a daemon that has not installed has lost none of the entries it came with, and its commit set is the old one or the agreed one. |
| `FormAttempts.RecoveredAsGood` | spread-src-4.4.0/daemon/membership.c:835-875 | A member that acted on its record, recovered for any time among any daemons, and lost its token is as good a member as when it was visited: it has every number it had, its own packets with them, has got as far in sequence, and its Aru is one that every member has reached. |
| `FormAttempts.HistoryKeeps` | spread-src-4.4.0/daemon/membership.c:835-875 | After any number of failed attempts, each for any of the members, with packets coming in at any time, the members of a ring are as the FORM1 token needs to find them, and none has lost a packet of the ring that it had. |
| `FormAttempts.RunsEnterRecovery` | spread-src-4.4.0/daemon/membership.c:2096-2331 | The whole way: for every run of an old ring, its members stopped at any moments, after any number of failed attempts, and for one more journey of a FORM1 token among members of any rings: no member it found faults on the FORM2 token; each is in the state recovery starts from, or has dropped a token with a malformed record. |
| `EvsTheorems.RecoveryCompleteness` | spread-src-4.4.0/daemon/protocol.c:745-752 | In every run of recovery: once one daemon has installed the membership, every daemon of it holds all packets of its own old ring that are no holes, and has committed, or has installed it as well. |
| `EvsTheorems.VirtualSynchrony` | spread-src-4.4.0/daemon/protocol.c:1596-1755 | In every run of recovery, daemons of one old ring that have installed the membership have delivered the same old-ring packets in the same order with the same signals. |
| `EvsContents.DeliveredIff` | spread-src-4.4.0/daemon/protocol.c:1596-1676 | In every run of recovery, which packets of its old ring an installed daemon has delivered: exactly those that are no holes and come before the first hole, or were sent by somebody in the commit set. |
| `EvsContents.BeforeSignalIff` | spread-src-4.4.0/daemon/protocol.c:1601-1632 | And which of them before the transitional signal: exactly those before the first hole and the first SAFE packet above the agreed aru. |
| `EvsContents.SafeBeforeSignal` | spread-src-4.4.0/daemon/protocol.c:1601-1632 | So a SAFE packet delivered before the signal is one that every visited member of the old ring had in sequence. |
| `EvsContents.SentIsDelivered` | spread-src-4.4.0/daemon/protocol.c:1642-1676 | What a visited daemon sent on the old ring is delivered by every daemon of that ring that installs the membership, itself included, whatever holes there are. |
| `EvsSignal.TransitionalMembership` | spread-src-4.4.0/daemon/membership.c:2532-2556 | For every journey of a FORM1 token and every recovery after it: an installed daemon was told of exactly one transitional membership, and in it are exactly the daemons of its old ring that are on the list of the FORM2 token; the token has visited them all. |
| `EvsSignal.AmongThem` | spread-src-4.4.0/daemon/membership.c:2532-2556 | The daemon itself is in it. |
| `EvsProgress.RecoveryEnds` | spread-src-4.4.0/daemon/protocol.c:745-752 | From the moment at which everybody has all packets of its old ring that are no holes, the token is handled at most 3n times more before all n daemons have installed. |
| `EvsProgress.CompletesAtOnce` | spread-src-4.4.0/daemon/protocol.c:745-752 | A daemon that misses nothing moves its `My_aru` to Last_seq at its next visit. |
| `EvsTheorems.RecoveryNoFatal` | spread-src-4.4.0/daemon/protocol.c:811-833 | In every run of recovery no daemon reaches an exit. |
| `EvsTheorems.Raiser` | spread-src-4.4.0/daemon/protocol.c:762-769 | The daemon that installs first is the one that raised the aru to Last_seq a round before. |
| `EvsTheorems.RaiserStays` | spread-src-4.4.0/daemon/protocol.c:762-769 | And nobody has taken the aru from it since. |
| `EvsSafety.EStepKeeps` | spread-src-4.4.0/daemon/protocol.c:503-881 | Every step of recovery keeps the recovery invariant. |
| `EvsToOp.OpeningMoment` | spread-src-4.4.0/daemon/protocol.c:589-595 | When the first daemon accepts a token with the membership installed, it is the raiser's, more than a round has passed, and every daemon has installed. |
| `EvsToOp.NormalOperationStarts` | spread-src-4.4.0/daemon/protocol.c:589-595 | At that moment, with daemons and visits counted anew from there, the ring is in an initial state of normal operation: the two halves of the model meet. |
| `Conf.IdInSeg` | spread-src-4.4.0/daemon/configuration.c:591-604 | The first place of an id in a segment, or -1 if it is not there. |
| `Conf.IdInConf` | spread-src-4.4.0/daemon/configuration.c:674-682 | The first segment that has the id, or -1 if none has. |
| `Conf.Leader` | spread-src-4.4.0/daemon/configuration.c:700-712 | The first member in configuration order, whatever segments are empty. |
| `Conf.Last` | spread-src-4.4.0/daemon/configuration.c:714-729 | The last member in configuration order. |
| `Conf.AppendIdToSeg` | spread-src-4.4.0/daemon/configuration.c:663-673 | Appends a known id; an unknown one changes nothing. |
| `Conf.Previous` | spread-src-4.4.0/daemon/configuration.c:731-768 | The member before this one in configuration order, the last one before the first, with any pattern of empty segments. |
| `Conf.Net.FillAddresses` | spread-src-4.4.0/daemon/network.c:179-200 | One address for each other segment that has members, in order. |
| `Conf.Net.SetMembership` | spread-src-4.4.0/daemon/network.c:160-242 | The token goes to the member after this one in configuration order, the first one after the last, with any pattern of empty segments. |
| `Conf.RingSuccession` | spread-src-4.4.0/daemon/network.c:207-239 | Successor and predecessor undo each other; following successors from any member visits every member once before returning, and leads from the leader to the last. |
| `Packing.PackingRoundTrip` | spread-src-4.4.0/daemon/protocol.c:1102-1240 | Any queue of messages whose fragments but the last are full size, packed into packets and delivered in sequence order, comes out as the same messages in the same order. |
| `Packing.NoSequenceError` | spread-src-4.4.0/daemon/protocol.c:1383-1507 | The sequence-error exit is not taken, not even when early RELIABLE packets come out of order in between or the stream is cut short. |
| `Packing.SendersApart` | spread-src-4.4.0/daemon/protocol.c:1356-1508 | However the packets of several senders are mixed, each sender's messages come out as if there were no others. |
| `Packing.FillParses` | spread-src-4.4.0/daemon/protocol.c:1151-1236 | What the filling loop adds are whole messages, within the size of a packet body, and the parser finds exactly those. |
| `Packing.PackLeft` | spread-src-4.4.0/daemon/protocol.c:1102-1240 | Every packet takes something from the queue, so the queue empties. |
| `PackedServices.PacketTakes` | spread-src-4.4.0/daemon/protocol.c:1151-1236 | One packet takes the next elements that wait: all have its service, or they and it are FIFO or AGREED; and the one after them has another service or finds no room. |
| `PackedServices.PacketsShare` | spread-src-4.4.0/daemon/protocol.c:1212-1216 | So for a whole queue: the packets are a cut of what waits into such pieces, in order, nothing left out. |
| `PackedServices.ServiceKept` | spread-src-4.4.0/daemon/protocol.c:1212-1216 | A packet is SAFE exactly if what is in it was sent SAFE; the same for RELIABLE and UNRELIABLE. |
| `PackedServices.SafeMessages` | spread-src-4.4.0/daemon/protocol.c:1756-1776 | In every run of a ring, a packet with a fragment of a SAFE message that one daemon has delivered is one that every daemon has: SafeDelivery for messages. |
| `PackedServices.EarlyAlike` | spread-src-4.4.0/daemon/protocol.c:1515-1541 | What the ring delivers early is what the parser takes for a whole message. |
| `Packing.Split` | spread-src-4.4.0/daemon/message.c:321-357 | The fragments joined are the message, all but the last full size; too many fragments is a failure, exactly then. |
| `PackingMethods.DownQueue.Next` | spread-src-4.4.0/daemon/protocol.c:1153-1178 | Steps to the next element; the fragment index says how many came before, and minus the number for the last. |
| `PackingMethods.DownQueue.FillPacket` | spread-src-4.4.0/daemon/protocol.c:1104-1239 | Fills one packet as the reference packing does, leaves the queue where that leaves it, and takes the next elements that wait, as many as may share the packet and find room. |
| `PackingMethods.UpQueue.DeliverPacket` | spread-src-4.4.0/daemon/protocol.c:1356-1508 | Collects or hands up as the reference parser does, including the sequence-error exit. |
| `PackingMethods.ParseInner` | spread-src-4.4.0/daemon/protocol.c:1383-1507 | The loop over inner fragments finds what the recursive parser finds. |
| `GroupBookkeeping.StartKeeps` | spread-src-4.4.0/daemon/groups.c:290-354 | The group invariant holds when a daemon starts. |
| `GroupBookkeeping.JoinKeeps` | spread-src-4.4.0/daemon/groups.c:918-1102 | A join keeps the group invariant (counts, no empty daemons, mailboxes, ids by state), is not fatal, and the member is in the group afterwards. |
| `GroupBookkeeping.LeaveKeeps` | spread-src-4.4.0/daemon/groups.c:1104-1239 | A leave keeps it, is not fatal, and the member is not in the group afterwards. |
| `GroupBookkeeping.KillKeeps` | spread-src-4.4.0/daemon/groups.c:1241-1353 | A kill keeps it, is not fatal, and the member is in no group afterwards. |
| `GroupBookkeeping.TransKeeps` | spread-src-4.4.0/daemon/groups.c:782-916 | A transitional membership in GOP or GGATHER keeps it. |
| `GroupBookkeeping.RegKeepsInTrans` | spread-src-4.4.0/daemon/groups.c:547-671 | A regular membership in GTRANS keeps it: partitioned daemons leave changed groups, empty groups go. |
| `GroupBookkeeping.RegKeepsInCascade` | spread-src-4.4.0/daemon/groups.c:676-778 | A regular membership before the exchange was over keeps it. |
| `GroupBookkeeping.GatheredKeeps` | spread-src-4.4.0/daemon/groups.c:1697-1774 | The end of the exchange keeps it, and leads to GOP, or on to GTRANS. |
| `GroupBookkeeping.AddToSyncedHolds` | spread-src-4.4.0/daemon/groups.c:2778-2810 | Merging two disjoint sets in configuration order gives their union in configuration order, and is not fatal. |
| `GroupBookkeeping.OrderUnique` | spread-src-4.4.0/daemon/groups.c:2778-2810 | A set has one list in configuration order, so all daemons end with the same one. |
| `GroupBookkeeping.MergeAllOK` | spread-src-4.4.0/daemon/groups.c:1710-1726 | Taking in the messages of any number of disjoint sets keeps the invariant. |
| `GroupBookkeeping.BoxRemoved` | spread-src-4.4.0/daemon/groups.c:2963-2978 | Removing a mailbox by overwriting it with the last one leaves the mailboxes of the other local members, one each. |
| `GroupReplicas.MembersAfter` | spread-src-4.4.0/daemon/groups.c:918-1353 | Who is in which group after a join, a leave or a death: the one it is about comes or goes, nobody else in any group does. |
| `GroupReplicas.IdFollowsMembers` | spread-src-4.4.0/daemon/groups.c:1010-1239 | Within a membership a group gets the next id exactly if its members change; a new group starts with index 1. |
| `GroupReplicas.IdTellsApart` | spread-src-4.4.0/daemon/groups.c:1010-1239 | Over any joins, leaves and deaths, as long as a group exists, equal ids mean equal members. |
| `GroupReplicas.IdStartsOver` | spread-src-4.4.0/daemon/groups.c:1010-1239 | The limit of that: a group that has gone and comes back within a membership has index 1 again, for another member. |
| `GroupReplicas.AfterTransitional` | spread-src-4.4.0/daemon/groups.c:790-850 | A transitional membership leaves a group alone exactly if it leaves it all its daemons; otherwise the group has a new id, its daemons and members are those it had, and the absent ones are partitioned. |
| `GroupReplicas.AfterRegular` | spread-src-4.4.0/daemon/groups.c:541-639 | A regular membership after it: of a changed group only the daemons that are not partitioned stay, with a new id if no exchange follows; a group all of whose daemons were partitioned is gone; an unchanged group stays as it is. |
| `GroupReplicas.AfterCascade` | spread-src-4.4.0/daemon/groups.c:720-778 | A regular membership that comes before the exchange is over: with the complete sets taken in, exactly the daemons of the transitional membership stay, and a group that loses any has changed. |
| `GroupView.GroupViewAgreement` | spread-src-4.4.0/daemon/groups.c:1697-1774 | Daemons of any two synced sets that have gathered all sets in GGATHER, in any orders, end with the same groups, daemons, members, counts, ids and changed decisions, and with the whole membership in configuration order as their synced set; no two sets may hold one unchanged group under one membership id. CascadeAgreement is the statement for every daemon, in GGATHER or GGT. |
| `GroupView.ExchangeResult` | spread-src-4.4.0/daemon/groups.c:1697-1774 | What the exchange comes to: a group has exactly those whom any set had in it; one that a single set had, unchanged, keeps its id, and every other has the first id of the new membership. |
| `GroupCascade.CascadeCommutes` | spread-src-4.4.0/daemon/groups.c:861-906 | A cascading membership: whether a daemon hears of the next transitional membership before the last GROUPS message (and finishes in GGT, its groups marked) or after it, its state in the end is the same. |
| `GroupCascade.CascadeAgreement` | spread-src-4.4.0/daemon/groups.c:1676-1691 | All daemons that have gathered all sets end with the same view, in GGT or GGATHER, in any mix: two that have not heard of the next transitional membership, or two that have, each before or after its last GROUPS message. |
| `GroupCascade.EarlyIds` | spread-src-4.4.0/daemon/groups.c:1731-1764 | Right after G_compute_and_notify, before the waiting transitional membership is handled, a daemon in GGT and one in GGATHER agree on the groups and their members, but not on all ids: a group has different ids exactly if only the set of the GGT daemon has it, unchanged, and it has a daemon outside the transitional membership. |
| `GroupCascade.EarlyIdsDiffer` | spread-src-4.4.0/daemon/groups.c:885-902 | Two daemons that share such a group: their ids for it differ at that point. |
| `GroupReplicas.ReplicasAgree` | spread-src-4.4.0/daemon/groups.c:525-1353 | Outside the exchange: daemons that agree and deliver the same joins, leaves, deaths and memberships in one order agree on everything all the way, and keep the invariant. |
| `GroupReplicas.RegAlikeInCascade` | spread-src-4.4.0/daemon/groups.c:676-778 | Daemons that agree, with the same sets complete, agree after a regular membership that comes before the exchange is over. |
| `GroupStart.ExchangeIffJoined` | spread-src-4.4.0/daemon/groups.c:572 | A regular membership leads to GOP if and only if it is the transitional one; if any other daemon is in it, to GGATHER. |
| `GroupStart.OneSet` | spread-src-4.4.0/daemon/groups.c:541-639 | A membership of one synced set that was not exchanging: all its daemons are in GOP at once, with one view. |
| `GroupStart.SeveralSets` | spread-src-4.4.0/daemon/groups.c:541-671 | Any other membership: every daemon of every set is in GGATHER, and what the leaders of the sets send is what GroupViewAgreement takes as given. |
| `GroupStart.ExchangeStarts` | spread-src-4.4.0/daemon/groups.c:541-671 | The leaders' sizes add up to the membership and nothing is counted yet: the start that GroupDelivery and GroupExchange take as given. |
| `GroupStart.MembershipAgreement` | spread-src-4.4.0/daemon/groups.c:525-780 | Every regular membership, whatever synced sets it is made of: all daemons end in GOP with one view of the groups, and the membership is their synced set. |
| `GroupStart.NextTransitional` | spread-src-4.4.0/daemon/groups.c:782-860 | And a transitional membership makes the synced set what the next regular one needs. |
| `GroupExchange.ExchangeOrder` | spread-src-4.4.0/daemon/groups.c:1638-1691 | In every run of the exchange of one membership, a daemon that is gathering next gets a GROUPS message and one that is done an ordinary one: the fatal cases of the handlers are not reached. |
| `GroupExchange.ExchangeComplete` | spread-src-4.4.0/daemon/groups.c:1662-1667 | When the count of daemons is complete no GROUPS message of the membership is still to come. |
| `GroupDelivery.CountFollows` | spread-src-4.4.0/daemon/groups.c:1638-1675 | The handler, run over the messages in their order, only stores and counts while the exchange is not over; the message that completes the count ends it. |
| `GroupDelivery.HandlersFollow` | spread-src-4.4.0/daemon/groups.c:1638-1691 | In every run of the exchange, a daemon whose handlers have run over what it delivered has left GGATHER or GGT exactly if the exchange is over; what it delivered since are ordinary messages; and if the stored messages carry the sets, it has not faulted and is where the exchange of sets leads, in GOP or on in GTRANS. |
| `GroupDelivery.TakenInCascade` | spread-src-4.4.0/daemon/groups.c:698-726 | When a regular membership comes before the exchange is over, the daemon takes in exactly those other sets whose last message has come, each with all its messages; and none if the last message of its own set has not come. |
| `GroupCodec.MessageRoundTrip` | spread-src-4.4.0/daemon/groups.c:2068-2226 | A GROUPS message is read back as it was written: flag, synced set, groups, daemons, members. |
| `GroupBuffers.CutSize` | spread-src-4.4.0/daemon/groups.c:2153-2188 | No buffer grows beyond GROUPS_BUF_SIZE, the message header included. |
| `GroupBuffers.BuffersHoldAll` | spread-src-4.4.0/daemon/groups.c:2068-2242 | All buffers together hold every daemon of every group once, in the order of the list. |
| `GroupBuffers.CutFull` | spread-src-4.4.0/daemon/groups.c:2151-2207 | A buffer is closed only where the next group or daemon would not fit. |
| `GroupBuffers.BuildingEnds` | spread-src-4.4.0/daemon/groups.c:2228-2242 | Building comes to an end if and only if the members of each daemon fit into a fresh buffer. |
| `GroupParts.OneChunkEach` | spread-src-4.4.0/daemon/groups.c:2066-2067 | Each daemon of a group is in one buffer only, and the parts of a group agree on its id and flag. |
| `GroupParts.AnyOrder` | spread-src-4.4.0/daemon/groups.c:2359-2473 | The parts of a list may be taken in in any order. |
| `GroupParts.GroupListRoundTrip` | spread-src-4.4.0/daemon/groups.c:2300-2475 | Taking in the parts of all buffers, in any order, adds exactly the groups, daemons and members of the list to whatever was there. |
| `GroupMessages.BuildNewGroupsBufs` | spread-src-4.4.0/daemon/groups.c:2228-2242 | Ends, and the list of buffers holds the messages of all parts, the newest first, none too large. |
| `GroupMessages.GroupsRoundTrip` | spread-src-4.4.0/daemon/groups.c:2068-2475 | Byte for byte: the messages built from a group list, taken in in any order, add that list. |
| `GroupMessages.EmptyListGetsAll` | spread-src-4.4.0/daemon/groups.c:2300-2475 | Into an empty list the list comes back as it was, without the mailboxes. |
| `GroupBufferMethods.PutDaemons` | spread-src-4.4.0/daemon/groups.c:2172-2213 | Writes as many daemons as fit, in place, each with the group's membership id. |
| `GroupBufferMethods.PutGroup` | spread-src-4.4.0/daemon/groups.c:2158-2214 | Head, daemons, then their number filled in where it was left open. |
| `GroupBufferMethods.BuildGroupsBuf` | spread-src-4.4.0/daemon/groups.c:2068-2226 | The buffer holds the message of the parts that were cut off, the iterators stand at the rest, and the message fits with its header. |
| `GroupEndToEnd.HandlersExchangeSets` | spread-src-4.4.0/daemon/groups.c:1710-1726 | What the handlers compute from the bytes of the gathered messages is what the exchange of whole sets computes. |
| `GroupEndToEnd.BytesToAgreement` | spread-src-4.4.0/daemon/groups.c:1697-1774 | Agreement from the bytes on: daemons that gathered the messages of all sets, in any order, end with the same view, in GGATHER or GGT, in any mix, as in CascadeAgreement. |
| `GroupSteps.UpdateDaemonMembIds` | spread-src-4.4.0/daemon/groups.c:2982-2994 | Every daemon that is not partitioned gets the membership id of its group. |
| `GroupSteps.MarkDaemons` | spread-src-4.4.0/daemon/groups.c:816-829 | Daemons outside the transitional membership become partitioned; the flag says if there were any. |
| `GroupSteps.ChangedByCascade` | spread-src-4.4.0/daemon/groups.c:2901-2917 | True exactly if a daemon is outside the transitional membership. |
| `GroupSteps.EliminatePartitioned` | spread-src-4.4.0/daemon/groups.c:2859-2897 | Exactly the daemons that have to go are gone, with their members from the count; the flag says if any. |
| `GroupSteps.RemoveMailbox` | spread-src-4.4.0/daemon/groups.c:2963-2978 | Finds the first entry of a mailbox and overwrites it with the last; not found exactly if it is not there. |
| `GroupSteps.TakeOutMember` | spread-src-4.4.0/daemon/groups.c:1171-1207 | A member leaves a group: mailbox, daemon if empty, group if empty, index; and when that is fatal. |
| `GroupSteps.TakeDaemons` | spread-src-4.4.0/daemon/groups.c:2417-2471 | The daemons of one part of a group go into it one by one. |
| `GroupSteps.TakeGroups` | spread-src-4.4.0/daemon/groups.c:2359-2473 | All parts in a message, to its end, go into the list. |
| `GroupSteps.MessToGroups` | spread-src-4.4.0/daemon/groups.c:2300-2475 | A message adds its parts to the list, and names its synced set if it is the first one. |
| `GroupClass.MergeSets` | spread-src-4.4.0/daemon/groups.c:2778-2808 | The merge by configuration index, with its sentinels, gives the reference merge, and fails exactly when that does. |
| `GroupClass.CompactSet` | spread-src-4.4.0/daemon/groups.c:2821-2835 | In place: those who stay, in order. |
| `GroupClass.GroupDaemon.constructor` | spread-src-4.4.0/daemon/groups.c:290-354 | A daemon starts in GOP with no groups, alone in its synced set, with nothing gathered. |
| `GroupClass.GroupDaemon.AddToSyncedSet` | spread-src-4.4.0/daemon/groups.c:2778-2810 | The synced set becomes the merge; unknown or common members are fatal. |
| `GroupClass.GroupDaemon.HandleJoin` | spread-src-4.4.0/daemon/groups.c:918-1102 | The whole new state after a join, in each of the four states. |
| `GroupClass.GroupDaemon.HandleLeave` | spread-src-4.4.0/daemon/groups.c:1104-1239 | The whole new state after a leave. |
| `GroupClass.GroupDaemon.HandleKill` | spread-src-4.4.0/daemon/groups.c:1241-1353 | The whole new state after a kill: the loop over the groups takes the member out of all of them. |
| `GroupClass.GroupDaemon.HandleTrans` | spread-src-4.4.0/daemon/groups.c:782-916 | The whole new state after a transitional membership. |
| `GroupClass.GroupDaemon.HandleReg` | spread-src-4.4.0/daemon/groups.c:525-780 | The whole new state after a regular membership, with complete sets taken in after a cascade. |
| `GroupClass.GroupDaemon.ComputeAndNotify` | spread-src-4.4.0/daemon/groups.c:1697-1774 | The whole new state at the end of the exchange, and on to GTRANS if a transitional membership waits. |
| `GroupClass.GroupDaemon.HandleGroups` | spread-src-4.4.0/daemon/groups.c:1550-1695 | A GROUPS message is ignored, stored with those of its representative, or completes the exchange. |
| `GroupClass.StoreMessage` | spread-src-4.4.0/daemon/groups.c:1618-1636 | The message goes to the head of its representative's list, or starts one. |

## Left out

- DaemonClass.Daemon.HandleBcast: status, flow-control, membership and hurry packets, and packets from a daemon outside the configuration, are handled elsewhere in the C code; the priority switch of the accelerated ring (434-476) only orders the reading of sockets.
- DaemonClass.Daemon.HandleToken: a token of the wrong membership or length, or while the membership is not alive, is dropped before this method; sending a token two or three times is one send, as the network may repeat it; the workaround that gives up after MAX_EVS_ROUNDS is left out, as giving up is always possible.
- DaemonClass.Daemon.DiscardEvs: resetting `cur_element` and the partly collected messages of other senders is not modelled, so PackingRoundTrip speaks about one membership.
- DaemonClass.Daemon.TokenHurry: that a daemon at the end of a segment of a wide network sends the token once more is a repetition.
- DaemonClass.Daemon.OwnRequests: the room on the token is computed in mathematical integers; the unsigned underflow for a body with almost no room left is not modelled.
- OpWindows.Retransmission: a request of another ring is copied, which is part of AnswerAllNoFault, not of this statement.
- FormMethods.ReadForm2: choosing the time of the membership id, addresses and windows of the future membership are parameters or left to Conf and FcAllowed.
- FormToken.FormProgress: the members and representatives on the FORM1 token are modelled on values, apart from the sorting and insertion; aliasing of the token buffers is not captured.
- GroupClass.GroupDaemon.HandleReg: building and sending the GROUPS messages at this point is BuildNewGroupsBufs; reusing buffers that are still fresh by stamping a new membership id is left out.
- GroupClass.GroupDaemon.HandleJoin: names that are not those of a configured daemon are resolved before; notifying local members is left out.
- GroupClass.GroupDaemon.HandleGroups: groups are values in a map rather than objects in a skip list, so aliasing is not captured, and loops over the groups take them in any order.
- GroupExchange.ExchangeOrder: that all daemons see the messages of a membership in one order is taken from OpTheorems.TotalOrder and OpInTurn.NothingEarly; messages of the previous membership delivered after a hole are not part of it.
- Conf.Net.SetMembership: ports, multicast addresses and several interfaces of one daemon are left out.
- Packing.PackingRoundTrip: padding bytes are zeros here and whatever was there in the C code; the reader does not look at them.
- Insert_rep, Smallest_rep and Sort_reps: the same loops as for members, with a second key.
- G_build_memb_vs_buf and the membership messages to clients: what clients see of a view is not modelled.
- GroupView.GroupViewAgreement: speaks of daemons in GGATHER only; those in GGT are in GroupCascade.CascadeAgreement.
- FormToken.FormedOfVisited: that ids are unique and that a daemon leaves the state in which it accepts a FORM1 token are premises.
- OpRepeat.LostTokenComesBack: that the queues of the accelerated ring are empty is a premise, as each daemon flushes its queue before it reads the next token; the leader's timer for the repetition is a step that may happen at any time.
- EvsContents.DeliveredIff: speaks of packets that are not RELIABLE ones delivered early; what RecoveryCompleteness says of those is that every daemon has them.
- GroupStart.MembershipAgreement: that no two sets hold one unchanged group under one membership id is a premise, as for GroupViewAgreement.
- Timers and liveness: token loss, SEG, GATHER and REPRESENTED, and which daemons try to form a ring, may happen in any way that the steps allow. Progress is proved per visit and per round of the token, not in time.
- Sockets, encryption, endian flipping, memory management, configuration files and their reload, monitoring, status and logging.
- Sessions: a local session is a name with a mailbox.
- Flow-control messages of the monitor, which change windows while a ring lasts.
- Overflow of 32-bit counters and of the 16-bit `flow_control`.
