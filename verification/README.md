# Peer-to-peer file distribution: a verified model

The program copies one file among a group of peers. The file is cut into pieces. Each peer keeps one
shared bitfield (every piece is absent, requested or owned) and holds one session with each neighbour.
A session is a control thread with an event queue; a scanner thread turns the messages that arrive into
events of that queue, and broadcasts and timer ticks of the same peer enter it as well. Several places
of the code end in `panic`, on conditions that can only be excluded by an argument about the whole swarm.

The project has five parts.

1. **The swarm** (`SwarmModel` to `SwarmRace`). Any number of peers, pieces and links; one step of the
   transition system is one atomic action of one thread, so all handlers interleave, within a peer and
   across peers. `SwarmInvariant.Inv` is a global inductive invariant over wires, queues, bitfields,
   disks and program counters. It is proved link by link: `SwarmMoves`, `SwarmArrivals` and
   `SwarmSafety` show that each kind of step keeps what holds between the two ends of a link, and
   `SwarmInvariant` and `SwarmShared` carry this over to the swarm. The results are stated in
   `SwarmRuns`, `SwarmTraffic`, `SwarmProgress`, `SwarmTalk` (what the two ends tell each other of interest and
   choking, as it arrives) and `SwarmAsking` (when a session asks), over every state of every run. A run is one in which
   every TearDown is informed: sent only once the other end has been told of every piece. The program
   relies on a sleep for that: `SwarmSleep` shows that runs whose sleeps outlast the broadcasts under way
   are runs in this sense, `SwarmTearDown` and `SwarmFatal` that an informed TearDown is exactly what
   safety takes, and `SwarmRace` gives concrete runs of three peers for both sides.
2. **Three protocols at the granularity of locks** inside a peer: the hand-over from the snapshot to the
   broadcasts of one session (`Handoff`, which refines the atomic steps of the swarm), broadcasts over a
   collection that sessions join meanwhile (`Broadcasts`), and the claim of a piece (`Claim`).
3. **The wire**: buffered streams (`Streams`), the message format (`Codec`), the messages read and
   written over the streams (`Wire`).
4. **The storage**: the cut of the file into pieces (`Geometry`), the cache (`Repository`, a class, and
   `RepositoryRuns`, its operations interleaved, with a concrete run in `RepositoryRace`).
5. **The program of a session and of the collection**: `SessionThread.SessionLoop` has the fields and
   the handlers of the control thread over the classes of `Bitfields` and `Repository`; each handler is
   proved to take a path of steps of the swarm, and `SessionRuns` shows that such a path is a stretch of
   a run of the swarm, so that the event loop of the class does not panic there. `Neighbors` is the
   choice of the preferred neighbours.

`Utils` holds what several modules share.

## What is false of the code, and when it is true

- A TearDown may be premature: nothing but the length of a sleep keeps a session from sending it while the
  other end has not been told of every piece. The condition is exact. Where a session comes to send its
  TearDown, the swarm can go on to a panic of the other end if and only if there is a piece that the other
  end neither knows nor is about to read of (`SwarmFatal.TearDownIsSafeExactly`); and if there is one, the
  other end is never done, however the swarm goes on, so that the TearDown can only meet the panic
  (`SwarmTearDown.UninformedIsFatal`). A sleep that outlasts the broadcasts under way is enough
  (`SwarmSleep.SleepInforms`), though not always necessary (`SwarmRace.EarlyWakeMayBeHarmless`); that a
  shorter one can end in the panic is shown by a run (`SwarmRace.SleepIsNeeded`).
- The status that a session keeps of its peer, choked or not, is not always what the peer believes: a Choke that
  answers NotInterested is not noted (`SwarmTalk.ChokeGoesUnnoted`). The two agree if and only if every such Choke
  has been followed by a tick that was noted and sent (`SwarmTalk.ChokeIsNotedExactly`).
- The byte counter of the cache is not exact under overlapping misses: it is exact if and only if no
  insertion has found its piece in the cache (`RepositoryRuns.CounterExactly`). An eviction reaches into
  an empty cache if and only if what has leaked from the counter leaves no room for the piece
  (`RepositoryRuns.RoomExactly`). A run of two threads shows both (`RepositoryRace.CounterDrifts`,
  `RepositoryRace.EvictionStarves`).
- The reader of messages does not compare the length field with the type of the message; a wrong length
  loses the frame (`Codec.WrongLengthLosesFrame`). `Codec.FramedExactly` says exactly when the frame is kept.
- `BufferedWriter` says that its capacity never changes. It changes exactly when a single byte is written
  to a full buffer (`Streams.BufferedWriter.WriteByte`); what is written is right all the same.
- `SyncPieceBitfield::setRequested` breaks the counter exactly if the piece is owned
  (`Bitfields.SyncPieceBitfield.SetRequested`); `Claim.PickedStaysAbsent` shows that it never is.
- `owningAll` may be true while a slot is not owned, exactly in the middle of `setOwned` of the last piece
  (`Claim.OwningAllIsRight`).

## Model

| member | source | states |
|---|---|---|
| SwarmRuns.NeverPanics | session/Session.cpp:162-190 | in every state of every run no panic is enabled at any session: no request for a piece not owned, no piece that was not requested, no premature TearDown, no index out of range, no bitfield out of turn or of the wrong length, no piece of the wrong size |
| SwarmRuns.TokensConserved | session/Session.cpp:56-81 | a piece is requested at a peer exactly while some session of the peer holds a token for it (a claim, a Request or a Piece under way, queued or being saved), and then one session holds exactly one |
| SwarmRuns.ViewsAccount | session/Session.hpp:104-132 | what a peer owns is exactly what the other end knows, or is on its way, or waits in the queue of the session, or is in a broadcast under way; nothing else is ever announced |
| SwarmRuns.ViewsExact | session/Session.cpp:144-151 | with nothing under way, the view of a session is exactly what its peer owns |
| SwarmRuns.NoSessionIsStuck | session/Session.cpp:112-118 | with nothing under way, a session is done exactly if both peers own everything: the done checks of setup, BcastHave and MsgHave miss no case |
| SwarmRuns.NotInterestedIsHonest | session/Session.hpp:62-74 | between handlers, a session whose last word was NotInterested has nothing to want of its peer, whatever the other sessions have done to the bitfield since; that the last word is the last message is SwarmTalk.LastWordCounts |
| SwarmTalk.LastWordCounts | session/Session.cpp:98-143 | over every run, with sleeps of any length: while the other end is not done, the last Interested or NotInterested on the wire, else in its queue, else noted by it, is what the session said last; the last Choke or Unchoke is a Choke whenever the session has its peer choked, and an Unchoke only when it has it unchoked |
| SwarmTalk.LastWordIsHonest | session/Session.hpp:62-74 | between handlers, if the last word about interest that is under way to the other end or noted by it is NotInterested, nothing is wanted of it; with nothing under way, a session that wants a piece is noted as interested at the other end |
| SwarmTalk.InterestIsRetracted | session/Session.cpp:84-92 | with nothing under way, a session that last said Interested sees at its peer a piece that it does not own: interest that is over has been taken back |
| SwarmTalk.ChokeIsNotedExactly | session/Session.cpp:98-143 | over every run: while the other end is not done, it will believe itself choked exactly if the session has it noted as choked, if and only if every Choke that answered NotInterested without a note has been followed by a tick that changed the note |
| SwarmTalk.AgreesStep | session/Session.cpp:98-143 | exactly two steps change whether note and belief agree: that Choke, and such a tick |
| SwarmTalk.ChokeGoesUnnoted | session/Session.cpp:131-143 | an input on which they come to differ |
| SwarmTalk.TalkStep | session/Session.cpp:94-216 | every step keeps, on every link, what the other end will believe once it has heard everything under way |
| SwarmTalk.RetractStep | session/Session.cpp:84-92 | every step keeps, for each session that last said Interested, a piece in view that is not owned, or whose broadcast the session has yet to handle |
| SwarmAsking.UnchokedAsks | session/Session.cpp:122-127 | a session in its event loop that is not choked has a Request or its Piece under way, or it found nothing to want of its peer when it asked last: no chance to ask is missed, after an Unchoke or after a piece |
| SwarmAsking.AsksOnlyUnchoked | session/Session.cpp:55-81 | every claim and every Request of a run is made while the session is not choked, which is what requestNextIfPossible demands of its callers |
| SwarmAsking.TokensStep | session/Session.cpp:56-81 | a claim makes the one token of its piece, a completion takes it away, and no other step of any thread makes, loses or moves to another session a token |
| SwarmRuns.DrainingLosesNothing | session/Session.cpp:199-208 | once a session is done both peers own everything and no request or piece exists on the link in either direction; once its TearDown is sent, the peer knows of every piece or is about to read of it |
| SwarmRuns.HandshakeCloses | session/Session.cpp:209-216 | a TearDown is the last message of its wire and stays under way until it has ended the other end; with both closed and nothing under way both have ended |
| SwarmRuns.ContentAgrees | session/Session.cpp:172-182 | if the complete peers start from one file, every piece a peer owns has the content of that file on its disk, and a peer that owns all holds the file |
| SwarmRuns.PiecesCarryTheFile | session/Session.cpp:162-171 | every piece on a wire, in a queue or about to be saved carries the content of the file |
| SwarmRuns.CompletePeerHasFile | main.cpp:63-70 | in bytes: a peer that owns all pieces has a file equal to the original byte for byte, and each owned slice is that of the original |
| SwarmRuns.WiresAreSendable | msg/ActualMsg.hpp:24-28 | if indices and pieces fit in 31 bits, every message on a wire of a reachable state can be framed, so the wire format carries what the sessions send |
| SwarmRuns.RunInv | session/Session.cpp:94-222 | the invariant holds in every state of every run |
| SwarmShared.StepInv | session/Session.cpp:94-222 | every step of every thread keeps the global invariant |
| SwarmShared.ClaimInv | session/Session.cpp:60-75 | a claim keeps it: the token it creates is the only one of the piece |
| SwarmShared.SetOwnedInv | session/Session.cpp:181-182 | a completion keeps it: the token disappears and the broadcast owed to every session takes over |
| SwarmShared.AckHaveInv | session/SessionCollection.hpp:141-146 | telling one session of a broadcast keeps it: what is struck off the list is in the queue of that session, or its snapshot is still to come |
| SwarmSafety.WriteDiskInv | storage/PieceRepository.cpp:38-43 | saving a piece keeps it: what is written is the content of the file |
| SwarmSafety.LocalInv | session/Session.cpp:94-222 | all steps that touch one link only keep it |
| SwarmArrivals.SnapshotLink | session/Session.cpp:18-23 | the snapshot tells the peer of every owned piece and keeps both directions of the link |
| SwarmArrivals.BitfieldLink | session/Session.cpp:37-42 | the first message a set-up reads is the bitfield of the right length, and building the view from it keeps the link |
| SwarmArrivals.ScanLink | session/AsyncMsgScanner.cpp:11-58 | the scanner never meets a bitfield, and moving a message from the wire to the queue loses no knowledge and no token |
| SwarmArrivals.ArriveLink | session/Session.hpp:124-142 | broadcasts and timer ticks may enter a queue at any time |
| SwarmArrivals.ClaimLink | session/Session.cpp:60-66 | on the link of the claim, the piece gets its one token, and the peer owns it |
| SwarmArrivals.OwnedLink | session/Session.cpp:174-182 | on the link of a completion, the piece was requested and its token is gone |
| SwarmArrivals.WantedShrinks | session/Session.hpp:69-74 | while the own bitfield moves forward, what is wanted of a given view only shrinks |
| SwarmArrivals.ForwardLink | session/Session.hpp:69-74 | a change of the bitfield made by another session keeps a link |
| SwarmMoves.SetupLink | session/Session.cpp:44-52 | the end of the set-up keeps the link |
| SwarmMoves.BcastLink | session/Session.cpp:84-92 | a broadcast becomes a HAVE, in the loop and while draining: nothing that was owed to the peer is lost |
| SwarmMoves.HaveLink | session/Session.cpp:144-160 | a HAVE names a piece in range that the peer owns, and handling it keeps the link |
| SwarmMoves.RequestLink | session/Session.cpp:162-171 | a requested piece is owned, and the request turns into the piece: one token for one |
| SwarmMoves.PieceLink | session/Session.cpp:172-176 | a piece that arrives is requested, and passes from the queue into the hand of the session |
| SwarmMoves.NoPrematureTearDown | session/Session.cpp:188-190 | a session in its event loop never has a TearDown at the head of its queue |
| SwarmMoves.DoneLinkHasNoTokens | session/Session.cpp:199-216 | on a link with a done end both peers own everything and no token is left |
| SwarmMoves.DropLink | session/Session.cpp:200-208 | what the drain throws away is owed to nobody, and a TearDown met there ends the session rightly |
| SwarmMoves.SendTearDownLink | session/Session.cpp:209-210 | a TearDown sent when the peer has been told of everything keeps the link |
| SwarmMoves.AwaitLink | session/Session.cpp:211-216 | ignoring everything up to the TearDown of the peer keeps the link |
| SwarmTraffic.PhaseStep | session/Session.cpp:56-81 | each piece of each peer goes through absent, claimed, asked for, arrived, owned in this order, driven by exactly one kind of step each |
| SwarmTraffic.TrafficIsBounded | session/Session.cpp:61-80 | over any run a peer claims, asks for, receives and completes each piece at most once, and exactly once if the run takes the piece across that phase |
| SwarmTraffic.TransfersAreBounded | session/Session.cpp:172-182 | in the whole swarm the claims, Requests, received Pieces and completions of a run are exactly as many as pieces have come that far, and never more than were lacking at the start |
| SwarmTraffic.SeedsReceiveNothing | session/Session.cpp:172-182 | a piece that a peer has from the start is never claimed, asked for, received or completed there |
| SwarmTraffic.SeedsNeverSave | storage/ExistingFile.hpp:25-27 | a session of a peer that is complete from the start never saves a piece, so the write to a file opened for reading does not occur |
| SwarmTraffic.CompletionLoggedOnce | piecebitfield/SyncPieceBitfield.hpp:56-64 | a peer that starts without the file logs its completion at most once in a run, and exactly if it completes |
| SwarmTraffic.LogStep | piecebitfield/SyncPieceBitfield.hpp:61-62 | the completion is logged at exactly the step that makes the bitfield complete |
| SwarmSleep.DrainedKnowsAll | session/Session.cpp:193-208 | when a session that has slept long enough has emptied its queue, the peer knows of every piece or is about to read of it |
| SwarmSleep.QuietStep | session/Session.cpp:193-198 | once a session has slept long enough, no broadcast is ever due to it again |
| SwarmSleep.SleepInforms | session/Session.cpp:193-210 | if every sleep outlasts the broadcasts under way to its session, every TearDown is sent after the other end has been told of every piece |
| SwarmTearDown.DoomedStep | session/Session.cpp:188-216 | an end that misses a piece of which it can no longer hear, with a TearDown under way to it, stays so at every step of the swarm |
| SwarmTearDown.UninformedIsFatal | session/Session.cpp:188-210 | after a TearDown sent while the other end does not know of some piece, the other end is never done in any continuation, the TearDown stays under way, and it is a panic when it comes up |
| SwarmTearDown.InformedExactly | session/Session.cpp:199-210 | in a run with sleeps of any length, every TearDown was informed if and only if, in the last state, no session is closed whose other end misses a piece |
| SwarmFatal.TearDownIsSafeExactly | session/Session.cpp:188-210 | where a session sends its TearDown, the swarm can go on so that the other end panics if and only if the other end has not been told of every piece |
| SwarmFatal.CatchUp | session/Session.cpp:94-192 | with such a TearDown on the wire, the other end comes to read it by steps of its own, and panics |
| SwarmFatal.Commutes | session/Session.cpp:209-210 | the sending of the TearDown and any step of the other end commute |
| SwarmFatal.LeftDrops | session/Session.cpp:96-192 | every step of a session that is not done leaves it less to do, broadcasts to itself included |
| SwarmProgress.NextMove | session/Session.cpp:94-222 | wherever a session stands, it can move, unless it waits for its peer or for messages or is over |
| SwarmProgress.FinishedMeansEnded | session/Session.cpp:94-222 | no deadlock: when nothing but timers can move, each session has ended, or idles with an empty queue on a link whose peers are not both complete |
| SwarmRace.SleepIsNeeded | session/Session.cpp:193-198 | a concrete run of three peers and one piece in which a session wakes too early ends in the panic |
| SwarmRace.EarlyWakeMayBeHarmless | session/Session.cpp:193-198 | a concrete run to a sleeping session with a broadcast under way to it whose TearDown would be informed all the same |
| SwarmRace.Turned | session/Session.cpp:94-222 | a step of one of the four sessions of that run is a step of the swarm |
| Handoff.NoBroadcastMissed | session/Session.hpp:124-132 | over every interleaving of the set-up with any number of calls of ackHave, a piece whose broadcast has returned is in the snapshot or in the queue, and both hold owned pieces only |
| Handoff.StepInv | session/Session.cpp:18-22 | every step of the set-up, of a call of ackHave and of the other threads keeps the invariant of the hand-over |
| Handoff.AckInv | session/Session.hpp:124-132 | the steps of ackHave keep it, the second reading of the flag under the lock included |
| Handoff.Refines | session/Session.hpp:124-132 | every step is the atomic snapshot of the swarm, the atomic ackHave of the swarm, or invisible; each call takes effect at exactly one step |
| Broadcasts.StepInv | session/SessionCollection.hpp:141-160 | every step of broadcasts, joining sessions, set-ups and other threads keeps what has been broadcast covered |
| Broadcasts.BroadcastReachesAll | session/SessionCollection.hpp:141-160 | once a broadcast is over, every session of the collection, also one that joins later, has the piece in its snapshot or its queue from the moment it has a snapshot on |
| Broadcasts.CallIsPossible | session/SessionCollection.hpp:141-146 | a broadcast never gets stuck before a session |
| Claim.StepInv | session/Session.cpp:56-75 | every step of the threads that share the bitfield keeps locks, claims, picks and the counter consistent |
| Claim.SeenStep | piecebitfield/SyncPieceBitfield.hpp:56-78 | what the threads see of the bitfield changes at two kinds of step only, an atomic claim of a wanted piece and an atomic completion of a piece that the thread has claimed |
| Claim.PickedStaysAbsent | session/Session.cpp:63-66 | a piece that a thread has picked is still absent and wanted when it is marked, although completions do not take the lock of the claims |
| Claim.OwningAllIsRight | piecebitfield/SyncPieceBitfield.hpp:56-68 | the unlocked test of the counter is true exactly if each slot is owned or, in the middle of setOwned, about to be; outside of setOwned, exactly if every slot is owned |
| Claim.ClaimedOnce | session/Session.cpp:63-66 | a piece is claimed exactly once if it was absent and no longer is, else never; an owned piece stays owned |
| Pieces.CountAll | piecebitfield/SyncPieceBitfield.hpp:66-68 | the number of owned slots reaches the number of slots exactly if all are owned |
| Pieces.CountUpdate | piecebitfield/SyncPieceBitfield.hpp:59-63 | how the number of owned slots changes with one slot |
| Bitfields.Difference | piecebitfield/AbstractPieceBitfield.cpp:6-16 | lists in order and without repetition exactly the pieces that the view owns and the own bitfield lacks; panics exactly on different sizes |
| Bitfields.SyncPieceBitfield.constructor | piecebitfield/SyncPieceBitfield.hpp:32-38 | all owned or all absent, the counter right, the completion logged once for a complete peer |
| Bitfields.SyncPieceBitfield.TakeSnapshot | piecebitfield/SyncPieceBitfield.hpp:40-48 | the snapshot shows a requested piece as absent and everything else as it is |
| Bitfields.SyncPieceBitfield.SetOwned | piecebitfield/SyncPieceBitfield.hpp:56-64 | one slot changes, the counter stays right, the completion is logged exactly if all are owned then; panics exactly on an index out of range |
| Bitfields.SyncPieceBitfield.SetRequested | piecebitfield/SyncPieceBitfield.hpp:74-78 | one slot changes, and the counter stays right exactly if the piece was not owned |
| Bitfields.SyncPieceBitfield.OwningAll | piecebitfield/SyncPieceBitfield.hpp:66-68 | true exactly if every piece is owned |
| Bitfields.PieceBitfield.constructor | piecebitfield/PieceBitfield.cpp:6-13 | the view is what was received, and the recount agrees with it |
| Bitfields.PieceBitfield.SetOwned | piecebitfield/PieceBitfield.hpp:35-40 | one slot changes and the counter stays right, also when the piece is heard of again |
| Bitfields.PieceBitfield.OwningAll | piecebitfield/PieceBitfield.hpp:42-44 | true exactly if every piece is owned |
| Bitfields.CountUniform | piecebitfield/SyncPieceBitfield.hpp:32-35 | the counter of a uniform bitfield |
| SessionThread.BlockingQueue.Enq | BlockingQueue.hpp:19-25 | appends at the end |
| SessionThread.BlockingQueue.Deq | BlockingQueue.hpp:27-33 | takes the oldest entry, or blocks exactly if there is none |
| SessionThread.BlockingQueue.IsEmpty | BlockingQueue.hpp:35-38 | true exactly if nothing is queued |
| SessionThread.SessionLoop.constructor | session/Session.hpp:85-91 | a new session is the new session of the swarm |
| SessionThread.SessionLoop.SendBitfield | session/Session.cpp:14-25 | sends one bitfield that shows exactly the owned pieces, and takes exactly the snapshot step of the swarm |
| SessionThread.SessionLoop.ReceiveBitfield | session/Session.cpp:37-44 | builds the view and makes the first done check as the swarm does; panics exactly on a bitfield of another size |
| SessionThread.SessionLoop.SayInterest | session/Session.cpp:44-52 | says Interested if some piece is wanted and NotInterested if none is, as the swarm does |
| SessionThread.SessionLoop.InterestedInPeer | session/Session.cpp:44-48 | true exactly if some piece of the peer is wanted |
| SessionThread.SessionLoop.HandleBcast | session/Session.cpp:84-92 | sends HAVE, and NotInterested exactly if nothing is wanted any more |
| SessionThread.SessionLoop.RequestNextIfPossible | session/Session.cpp:56-81 | claims some wanted piece and asks for it, or does nothing exactly if nothing is wanted; the message, the mark in the bitfield and the steps of the swarm are stated |
| SessionThread.SessionLoop.BroadcastHave | session/SessionCollection.hpp:141-146 | the broadcast reaches the queue of every ready session, and to the swarm it is one ackHave after the other |
| SessionThread.Mailbox.AckHave | session/Session.hpp:124-132 | the event is queued exactly if the session is ready |
| SessionThread.TellAll | session/SessionCollection.hpp:141-146 | every session of the collection is told once, in its own queue |
| SessionThread.SessionLoop.TellEveryone | session/SessionCollection.hpp:141-146 | the queue of every ready session grows by the event, that of this session included |
| SessionThread.SessionLoop.CheckDone | session/Session.cpp:114-117 | the session is done exactly if both peers own everything as far as it knows |
| SessionThread.SessionLoop.SaveIt | session/Session.cpp:176-176 | stores the piece as the swarm does, panicking exactly on a wrong size |
| SessionThread.SessionLoop.MarkOwned | session/Session.cpp:181-181 | one completion is one step of the swarm |
| SessionThread.SessionLoop.StoreAndTell | session/Session.cpp:172-182 | save, setOwned and broadcast are a path of steps of the swarm |
| SessionThread.SessionLoop.FinishPiece | session/Session.cpp:172-186 | after a piece has been stored and told to everyone, a session that is not choked asks for one more wanted piece, if there is one, and a choked one for none; panics exactly on a wrong size |
| SessionThread.SessionLoop.ReactToPlain | session/Session.cpp:98-111 | for each choke and interest event, which messages are sent and what is noted: a tick sends Choke or Unchoke exactly if the peer is not noted so already, NotInterested is answered by Choke; as in the swarm |
| SessionThread.SessionLoop.ReactToBcast | session/Session.cpp:112-113 | a broadcast is passed on as HAVE, followed by NotInterested exactly if nothing is wanted |
| SessionThread.SessionLoop.CheckInterest | session/Session.cpp:156-159 | Interested is said exactly if something is wanted after a HAVE |
| SessionThread.SessionLoop.ReactToHave | session/Session.cpp:144-155 | updates the view and makes the done check; panics exactly on an index out of range |
| SessionThread.SessionLoop.ReactToRequest | session/Session.cpp:162-171 | answers with the slice of the file; panics exactly if the piece is not owned |
| SessionThread.SessionLoop.Fetch | session/Session.cpp:167-167 | an owned piece comes out of the repository as the slice of the file, and the file stays as it is |
| SessionThread.SessionLoop.ReactToPiece | session/Session.cpp:172-175 | panics exactly if the piece is not requested |
| SessionThread.SessionLoop.React | session/Session.cpp:97-191 | the switch on an event does what the swarm does, and panics exactly on the events that the swarm calls bad |
| SessionThread.SessionLoop.BeginEvent | session/Session.cpp:96-192 | dispatching an event is one step of the swarm, and panics exactly on the events that the swarm calls bad |
| SessionThread.SessionLoop.FinishEvent | session/Session.cpp:96-192 | the rest of each handler is a path of steps of the swarm; an Unchoke, and a piece that comes while unchoked, are followed by a Request for a wanted piece, if there is one; a HAVE is answered by Interested exactly if something is wanted and the session is not done |
| SessionThread.SessionLoop.HandleEvent | session/Session.cpp:96-192 | one turn of the loop is a path of steps of the swarm, or panics exactly on a bad event or a piece of the wrong size; the work in the queue shrinks |
| SessionThread.SessionLoop.EventLoop | session/Session.cpp:96-192 | the loop stops when done or out of events, and all it does is a path of steps of the swarm; it panics only where such a path has brought a bad event, or a piece of the wrong size, to the head of the queue |
| SessionThread.SessionLoop.Drain | session/Session.cpp:199-210 | the drain is a path of steps of the swarm, notices a TearDown exactly if one is queued, and ends with sending its own |
| SessionThread.SessionLoop.AwaitTearDown | session/Session.cpp:211-216 | ignoring events up to the TearDown is a path of steps of the swarm; it blocks exactly if no TearDown is queued |
| SessionRuns.StepFits | session/Session.cpp:94-222 | a step of a path is enabled in the swarm and has the same outcome there |
| SessionRuns.PathExtendsRun | session/Session.cpp:94-222 | a run of the swarm goes on with the steps of a path, so the results about runs hold for the program of the session |
| SessionRuns.LoopNeverPanics | session/Session.cpp:162-190 | in a swarm the condition under which a turn of the event loop does not panic is always met |
| SessionRuns.PathNeverPanics | session/Session.cpp:162-190 | wherever a path leads the session from a state of a run, the next event is no panic |
| SessionRuns.RunLoop | session/Session.cpp:94-192 | started in a reachable state of a swarm whose sleeps are long enough, the event loop of the class does not panic, and leaves the swarm in a reachable state |
| Streams.BufferedReader.Flush | io/BufferedReader.cpp:6-14 | shifting the window and refilling loses, repeats and reorders no byte, and makes progress |
| Streams.BufferedReader.Ensure | io/BufferedReader.hpp:18-22 | ends with at least n bytes in the window, the stream unchanged |
| Streams.BufferedReader.Read | io/BufferedReader.cpp:16-29 | delivers exactly the next n bytes and leaves the rest, on the short and on the long path |
| Streams.BufferedReader.ReadByte | io/BufferedReader.hpp:34-37 | delivers the next byte |
| Streams.BufferedReader.Read32 | io/BufferedReader.hpp:39-44 | delivers the next four bytes as an integer |
| Streams.BufferedReader.Discard | io/BufferedReader.hpp:46-49 | drops exactly the next n bytes |
| Streams.BufferedWriter.Write | io/BufferedWriter.hpp:25-34 | appends to what was written, on the short and on the long path, with the capacity unchanged; what fits stays in the buffer |
| Streams.BufferedWriter.WriteByte | io/BufferedWriter.hpp:36-38 | appends one byte; the capacity stays what it was if and only if the buffer was not full |
| Streams.BufferedWriter.Write32 | io/BufferedWriter.hpp:40-42 | appends the four bytes of an integer |
| Streams.BufferedWriter.Flush | io/BufferedWriter.hpp:44-47 | hands everything written over to the connection |
| Bytes.Int32RoundTrip | io/io_utils.hpp:10-16 | a 32-bit integer and its four bytes in network order determine each other, negative values included |
| Bytes.NetworkOrder | io/io_utils.hpp:10-16 | of two unsigned integers the smaller is the one whose four bytes come first in the lexicographic order: the most significant byte is written first |
| Bytes.CastsAreModular | io/io_utils.hpp:10-16 | the casts between signed and unsigned integers keep the value modulo two to the 32nd |
| Codec.StatusRoundTrip | piecebitfield/PieceBitfieldSnapshot.hpp:19-31 | a bitfield read back from its bytes is the bitfield written |
| Codec.BodyRoundTrip | msg/ActualMsg.cpp:13-55 | the payload of every type of message is read back, whatever follows it |
| Codec.RoundTrip | msg/ActualMsg.cpp:8-57 | a message written is the message read, whatever follows it, and exactly its bytes are taken |
| Codec.EmptyFrames | msg/MsgType.hpp:6-9 | the five messages without payload, byte for byte |
| Codec.IndexFrames | msg/IndexMsg.hpp:13-19 | the frames of Have and Request: length 5, type 4 or 6, the index |
| Codec.BitfieldFrame | piecebitfield/PieceStatus.hpp:9-13 | the frame of a bitfield: type 5 and one byte for each piece, 0 for absent, 1 for requested, 2 for owned |
| Codec.PieceFrame | msg/PieceMsg.hpp:29-40 | the frame of a piece: type 7, the index, the 16 bytes of the digest, the data |
| Codec.TypeIsRead | msg/ActualMsg.cpp:11-55 | the fifth byte decides the type of the message that is read, by the numbers of the enumeration, and every other number is a panic |
| Codec.FramedExactly | msg/ActualMsg.cpp:10-55 | the reader takes exactly the announced frame if and only if the length field is the right one for the message; for bitfields and pieces it always does |
| Codec.DecodeIsFaithful | msg/ActualMsg.cpp:8-57 | what was read has the encoding that was on the wire exactly if the length field is right and no byte of a bitfield is above 2 |
| Codec.WrongLengthLosesFrame | msg/ActualMsg.cpp:10-16 | an input on which a wrong length field makes the reader lose the frame |
| Codec.HandshakeRoundTrip | msg/HandshakeMsg.cpp:6-16 | a handshake is accepted exactly if it is the handshake of the peer id it yields |
| Codec.HandshakeFrame | msg/HandshakeMsg.cpp:6-8 | a handshake is 32 bytes: the prefix, character by character, and the four bytes of the peer id |
| Codec.EncodeAllAppend | msg/ActualMsg.hpp:24-28 | messages written one after the other are the concatenation of their encodings |
| Wire.WriteHandshake | msg/HandshakeMsg.hpp:17-20 | writes the encoding of the handshake |
| Wire.WritePiece | msg/PieceMsg.hpp:33-40 | writes index, digest and data in this order |
| Wire.WriteMsg | msg/ActualMsg.hpp:24-28 | writes the encoding of the message, step by step; what its bytes are is stated by the frames of the module Codec |
| Wire.ReadHandshake | msg/HandshakeMsg.cpp:10-16 | reads a handshake, or panics, as the format says |
| Wire.ReadMsg | msg/ActualMsg.cpp:8-57 | reads a message, or panics, as the format says of the bytes to come, and takes exactly its bytes; which byte stands for which type is Codec.TypeIsRead |
| Wire.ReadPiece | msg/ActualMsg.cpp:40-52 | the same for a piece, its digest checked |
| Wire.SendAll | msg/ActualMsg.hpp:24-28 | a handshake and any messages arrive at the connection as the concatenation of their encodings, whatever is flushed when |
| Wire.ReceiveMsgs | msg/ActualMsg.cpp:8-57 | reads back the messages that were sent and leaves what follows them untouched |
| Wire.Transfer | msg/ActualMsg.cpp:8-57 | the whole way: for any messages, buffer capacities, flushes and chunks, the receiver gets the handshake and the messages sent |
| Geometry.PieceInFile | utils/MathUtils.hpp:19-21 | the number of pieces is the number of piece starts that lie in the file |
| Geometry.PieceBounds | storage/PieceRepository.cpp:39-40 | no piece is empty, longer than the piece size or beyond the end of the file |
| Geometry.BytesInOnePiece | storage/PieceRepository.cpp:39-40 | every byte of the file lies in exactly one piece, and no byte beyond it in any |
| Geometry.ByteOfPiece | storage/PieceRepository.cpp:23-26 | byte b of the file is byte b mod p of piece b div p, for pieces of p bytes |
| Geometry.SaveSlice | storage/PieceRepository.cpp:39-43 | saving a piece changes its own slice and no other |
| Geometry.SaveCut | storage/PieceRepository.cpp:39-43 | on the file cut into slices, saving is one update: the form in which the swarm sees a disk |
| Geometry.CutDetermines | storage/PieceRepository.cpp:23-26 | two files of one size are equal exactly if all their slices are |
| Geometry.SavedSlices | storage/PieceRepository.cpp:38-43 | after saving pieces in any order each slice is new exactly if it was among them |
| Geometry.AnyOrderCompletes | main.cpp:68-70 | whatever the order, the file is there exactly if every slice was saved or right before |
| Repository.HeldRemove | storage/PieceRepository.cpp:7-13 | what a cache holds, less one entry, whichever entry it is |
| Repository.PieceRepository.EnsureSpace | storage/PieceRepository.cpp:7-13 | evicts until there is room, nothing if there is room already and each entry only because there is none with it; reaches into an empty cache exactly if even an empty cache has no room; keeps what it does not evict |
| Repository.PieceRepository.Insert | storage/PieceRepository.cpp:28-33 | keeps cache and counter right, and leaks exactly when the piece was cached already; evicts only for lack of room |
| Repository.PieceRepository.Get | storage/PieceRepository.cpp:16-35 | returns the slice of the file, from the cache or from the disk, and leaks nothing; a hit changes nothing, a miss evicts only for lack of room |
| Repository.PieceRepository.SavePiece | storage/PieceRepository.cpp:38-50 | writes through: the slice of the file is the piece, the others are untouched; panics exactly on a wrong size; evicts only for lack of room |
| Repository.SaveCoherent | storage/PieceRepository.cpp:43-47 | writing a piece that is not cached leaves every cached piece equal to its slice |
| RepositoryRuns.StepInv | storage/PieceRepository.cpp:16-50 | every step of any number of interleaved calls of get and save keeps the cache in agreement with the file |
| RepositoryRuns.ServedFromFile | storage/PieceRepository.cpp:16-35 | in every interleaving every cached and every returned piece is the slice of the file |
| RepositoryRuns.OwnedSlicesStay | storage/PieceRepository.cpp:37-43 | the slice of an owned piece never changes again |
| RepositoryRuns.LeakStep | storage/PieceRepository.cpp:28-33 | the counter drifts from the content at exactly one kind of step, the second insertion of a piece, by the size of the piece |
| RepositoryRuns.RoomExactly | storage/PieceRepository.cpp:7-13 | evicting one entry at a time ends with room, and not at an empty cache, if and only if what has leaked from the counter leaves room for the piece |
| RepositoryRuns.CounterExactly | storage/PieceRepository.cpp:28-33 | over every run the counter is within the limit and not below what the cache holds, and exact if and only if no insertion has found its piece in the cache |
| RepositoryRuns.CounterIsExact | storage/PieceRepository.cpp:28-33 | the counter is exact when misses of one piece do not overlap |
| RepositoryRuns.EvictionNeverStarves | storage/PieceRepository.cpp:7-13 | when misses of one piece do not overlap and no piece exceeds the limit, no insertion reaches into an empty cache |
| RepositoryRuns.OverlappingMissesLeak | storage/PieceRepository.cpp:16-35 | wherever two threads have read one piece that is not cached and there is room for two, inserting it twice makes the counter drift by its size |
| RepositoryRace.CounterDrifts | storage/PieceRepository.cpp:16-35 | a concrete run of two threads after which the counter says more than the cache holds |
| RepositoryRace.EvictionStarves | storage/PieceRepository.cpp:7-13 | that run goes on to an insertion that reaches into an empty cache, with no piece above the limit |
| Neighbors.PrecedesIsByClass | session/SessionCollection.cpp:54-67 | the comparator ranks active and interested sessions by bytes received, before other active ones, before inactive ones; written out for each of the three kinds of session |
| Neighbors.StrictWeakOrder | session/SessionCollection.cpp:49-67 | the comparator is a strict weak order |
| Neighbors.NthElement | session/SessionCollection.cpp:53-54 | a permutation in which nothing behind position n precedes anything before it |
| Neighbors.SortedSize | session/SessionCollection.hpp:61-63 | a strictly sorted vector is as long as the set it stands for is large |
| Neighbors.SnRefSet.LowerBound | session/SessionCollection.hpp:65-66 | the first position not below the address |
| Neighbors.SnRefSet.Contains | session/SessionCollection.hpp:65-69 | membership |
| Neighbors.SnRefSet.Remove | session/SessionCollection.hpp:71-75 | removes exactly one member and stays strictly sorted |
| Neighbors.SnRefSet.Add | session/SessionCollection.hpp:77-80 | adds one member, and stays strictly sorted exactly if it was not one already |
| Neighbors.SnRefSet.Minus | session/SessionCollection.hpp:82-89 | the merge is set difference, strictly sorted |
| Neighbors.SessionCollection.Reorder | session/SessionCollection.cpp:43-67 | every session stays, with its byte counts shifted by one tick and its interest and activity as it says now, and the best come first |
| Neighbors.SessionCollection.FirstActive | session/SessionCollection.cpp:68-72 | the set of the active sessions among the first places, without duplicates |
| Neighbors.SelectionIsRight | session/SessionCollection.cpp:49-72 | nobody left out precedes anybody chosen, and an active session is left out only if the set is full |
| Neighbors.CallsRotate | session/SessionCollection.cpp:73-80 | choking the difference of the sets and unchoking the new one calls choke on exactly those that left and unchoke on exactly those that are in, each once, all choking first |
| Neighbors.ChosenAreActive | session/SessionCollection.cpp:68-72 | every session of the new set is active, and is one of the collection |
| Neighbors.SessionCollection.PnAlgorithm | session/SessionCollection.cpp:41-82 | after a tick the set is made of active sessions only, the active ones among the first places of a permutation of the updated sessions, the best by the comparator; in the calls of this tick a session is choked exactly if it left the set and unchoked exactly if it is in it, each once, all choking first; a promotion clears the optimistic seat |
| Neighbors.SessionCollection.TryPreempt | session/SessionCollection.cpp:115-143 | a session takes a free seat, preferred first, optimistic second, and is unchoked exactly then; panics exactly on an unknown session |
| Neighbors.SessionCollection.Relinquish | session/SessionCollection.cpp:145-174 | a session gives up its seat and is choked exactly if it had one; then the first session that is active, choked and interested is unchoked, and none is only if no session of the collection is all three |
| Neighbors.SortedSizeDrop | session/SessionCollection.cpp:156-158 | giving up a seat keeps the set within its limit |

## Left out

- Sockets, accepting and retrying connections, real files, configuration, the text of the log, back
  traces and the cancelling of the scanner thread. A connection is a queue of messages in the swarm and
  a sequence of bytes below it; it delivers at least one byte whenever it is read.
- The handshake and the check of the expected peer id are not steps of the swarm. The handshake is part of the wire.
- MD5 is an arbitrary function to 16 bytes. The random choice of a piece is an arbitrary choice.
- The sleep of one second is a step that may be taken at any time. That a second outlasts the broadcasts
  under way is not shown; what follows if it does, and what is needed exactly, is.
- The timers, and the choke and unchoke that the collection sends to sessions, are arbitrary ticks in the swarm.
- That the download ever completes is not claimed: an unchoked session may wait for a later unchoke. What is
  claimed is that nothing hangs otherwise (`SwarmProgress.FinishedMeansEnded`).
- The optimistic neighbour timer (`optAlgorithm`) and the clean-up of ended sessions. The code does not
  keep the optimistic seat apart from the preferred ones, nor the number of unchoked sessions within a
  bound, nor an ended session out of the next selection, so none of this is stated.
- `SessionCollection::wait`, whose condition is guarded by another lock than the one it reads under.
- The numbers of pieces in the log, which are read outside the lock.
- Integers are unbounded except in the messages, where they are 32 bits wide. The casts of the number of
  pieces, of sizes and of piece counts to `int` are not modelled.
- A status byte above 2 in a received bitfield is read as requested. The views of the swarm hold absent
  and owned pieces only.
- SessionThread.SessionLoop.HandleEvent: each handler runs without interruption; the interleaving with
  other threads is the subject of the swarm, whose steps the handler takes.
- SessionThread.SessionLoop.SendBitfield: the handshake that precedes the bitfield is written in `Wire` only,
  and the lock around snapshot and flag is the subject of `Handoff`.
- SessionThread.SessionLoop.constructor: the connection, the writer and the scanner thread are not fields of the class.
- SessionThread.SessionLoop.ReactToPlain: the calls of `tryPreempt` and `relinquish` are not made from
  here; they are in `Neighbors`, and what they send to sessions is a tick of the swarm.
- Neighbors.NthElement: `std::nth_element` is given the body of a selection sort; only its contract is used.
- Repository.PieceRepository.Get: one call at a time; the interleaving of its three parts is in `RepositoryRuns`.
- Bitfields.SyncPieceBitfield.SetOwned: one critical section; its inner steps are told apart in `Claim`.
- The contents of the pieces of the swarm's concrete run are one byte long.
