# Verified model of oscmix-desk

A Dafny model of the parts of oscmix-desk where one mistake changes what a mixer plays, what a
client may write, or what survives a power cut. Every file holds one module (or one class and the
facts about it); `dafny verify dfyconfig.toml` checks them all.

Where the source changes something step by step the model is a method with a loop or a class with
the source's fields, proved against a function that says what it should do; what the source
promises is then proved of that function. Answers from outside (the socket, the clock, a stop
request, a native command, a failing disk) are scripts or parameters, and every theorem holds for
every script. Error paths are values of `Option`, `Result` or an outcome datatype.

## What is covered

- **Loopback signal** (`Complex`, `Bits`, `Dft`, `Fft`, `CrossCorrelation`, `Correlate`,
  `DelaySlope`). The in-place radix-2 transform equals the plain DFT sum for every power of two, in
  both directions, over exact complex numbers and any family of roots with w(2) = -1 and
  w(2s)² = w(s). The FFT correlation equals the direct double loop, its peak lies in -1..1, a
  lossless delay is found, and the fitted delay line is the least-squares optimum.
- **The mix matrix** (`MixModel`, `Base`, `Mirrors`, `BaseRoutes`, `BaseLinks`, `Dump`,
  `DumpRoundTrip`, `DumpFixedPoint`). A device that folds writes by the link flags of a block; a
  base and routes that determine it whatever it held; mirrors and base routes that keep a desk
  consistent; and the way back from reported cells to routes.
- **The ODK1 client and its operation** (`Protocol`, `OperationLease`, `LeaseClients`,
  `LeaseProgress`, `WriteAccounts`, `Bursts`, `Control`, `LeaseControl`, `WriteJournal`, `Desk`).
  The backend's lease and any number of connections as steps, with lost packets, refusals, expiry
  and disconnects; `Control` and `Desk` as classes; the write journal and its merge.
- **Subscription and service on disk** (`Subscription`, `Service`). Each durable change is a step,
  the machine may stop before any of them, and any action may come next.
- **OSC** (`Osc`, `OscBundle`). Messages as the OSC 1.0 specification lays them out in "OSC
  Messages" and "OSC Type Tag String", and nested bundles after "OSC Bundles".
- **Quieted switching and its report** (`Peaksafe`, `Observation`, `Outcome`).

## Where the code and its words differ

The model follows the code; each of these has the exact condition and an instance beside it.

- `src/oscmix_desk/base.py:25-29` promises that linking for a base merges nothing the desk sets apart.
  The mirror table of `base_routes` (line 156) keeps one target per source pair, so of two mirrors of
  one pair the first has its target linked unchecked (exactly when: `BaseLinks.NewLinksAreAlikeExactly`,
  in terms of what the desk declares; instance: `BaseLinks.TwoMirrorsEscapeTheCheck`).
- `src/oscmix_desk/dump.py:260-265` says dumping, applying and dumping again is a fixed point. It is
  one exactly when no cell reported as a linked pair or a single channel rounds to -65.0, which is
  written back as silence (`DumpFixedPoint.DumpIsAFixedPointExactly`,
  `DumpFixedPoint.LevelRoundsToTheFloor`). It also needs the other registers of a rewritten linked
  block to follow; one that does not contradicts it (`DumpFixedPoint.AliasesMustFollow`).
- `packaging/repository/configure.py:101-106` disables a subscription whose definition was edited.
  Stopped after the file is set aside and before the registration is written, a repeated
  package-finish publishes the definition again (`Subscription.RemovalKeepsTargetExactly`,
  `Subscription.StoppedMaintenanceForgetsAnEdit`).
- `packaging/repository/configure.py:161-162, 284-285` means to keep what was merged into a
  certificate, and an explicit change of primary. A change of key that is stopped or refused between
  the new certificate (line 171) and the next write of the registration (line 271, or 323) leaves the
  old primary on record beside it. A finish from there refuses for good, or drops what had been merged
  (exactly when: `Subscription.HalfAKeyChangeIsHarmlessExactly`; instances:
  `Subscription.StoppedKeyChange`; apt holding its lists, line 225, is enough to get there:
  `Subscription.Setup.KeyChangeWhileBusy`). The same change of key asked for again completes it.
- `src/oscmix_desk/peaksafe.py:16-17` promises the volumes back however the switch ends. A failure
  while the outputs are still being pulled down (line 115) gives none back
  (`Peaksafe.FailedQuietingGivesNothingBack`; harmless exactly when: `Peaksafe.VolumesStayDownExactly`;
  instance: `Peaksafe.OneOutputStaysDown`).
- `src/oscmix_desk/journal.py:11-13` merges, per register, the latest write. The merge goes by stamp and
  then by file, so a clock set back or two equal stamps can bring up an earlier write (exactly when:
  `WriteJournal.MergedIsTheLastWriteExactly`; instance: `WriteJournal.OvertakenWrite`).

## Reading the model

- *Cells a route writes.* `reconcile.py` is not part of this model. The registers a route writes are
  defined from the three shapes `src/oscmix_desk/dump.py:296-318` reads back (a linked pair's odd
  register, two hard-panned registers on an unlinked pair with the compensation of
  `src/oscmix_desk/constants.py:45-50`, a single cell), as `MixModel.RouteCells` and
  `DumpRoundTrip.Messages`. The compensation is any constant between 6.02 and 6.03.
- *Physical coefficients.* What a write leaves at a coefficient is symbolic (`MixModel.Sound`): it
  records level, balance, links and place, so two different writes are never confused and the
  explicit zero is silence in every addressing.
- *The backend.* Its steps follow the server in `patches/0003-coordinated-backend-and-gtk.patch`. A
  connection is never reused for another peer; a queue overflow is a disconnect right after the
  step that filled the queue; a request is either delivered whole or not at all.
- *Numbers.* Reals stand for floats. `sqrt` is a parameter that squares back to its argument, the
  roots of unity are a parameter with the two laws above, a float32 on the wire is its four bytes.
- *Digests.* A file's content is its own digest.
- *Journal files.* The size of a journal document is a parameter. `src/oscmix_desk/journal.py:144-150`
  reads a file past 8 MiB as empty while nothing keeps a stored one below that; `WriteJournal.RecordWritten`
  says when what it stored can be read again, and an operation's journal is complete
  (`DeskOperation.Desk.JournalHoldsAll`) where every store succeeded within the bound.
- *Texts of errors.* `src/oscmix_desk/profiles.py:282-288, 331-333` quotes an error's own text as the
  reason. `SwitchOutcome.EveryOutcomeIsAcceptable` is stated for any text; an empty one, which no
  raise in the source is known to produce, would make `Outcome` refuse its own result.

## Model

| member | source | states |
|---|---|---|
| `InPlaceFft.NextReversed` | scripts/loopback_signal.py:60-64 | the carry loop ends, and the counter is the bit reversal of i |
| `InPlaceFft.BitReverse` | scripts/loopback_signal.py:57-66 | swapping only where i < j leaves every element at its reversed index |
| `InPlaceFft.StageStep` | scripts/loopback_signal.py:73-78 | one butterfly turns two half-size transforms into the next stage's |
| `InPlaceFft.Butterflies` | scripts/loopback_signal.py:67-79 | all stages together turn bit-reversed samples into the transform, in place |
| `InPlaceFft.Fft` | scripts/loopback_signal.py:53-82 | for every power-of-two length the result is the DFT sum at every index, forward or inverse; other lengths are refused |
| `InPlaceFft.InverseUndoesForward` | scripts/loopback_signal.py:67-82 | the inverse of the forward transform is the input, for every power-of-two length |
| `Correlation.CorrelationTheorem` | scripts/loopback_signal.py:104-105 | multiplying the conjugate transform by the other and inverting is the circular correlation |
| `Correlation.PaddingUnwraps` | scripts/loopback_signal.py:99-107 | with padding to twice the length no wrapped term contributes at any lag |
| `Correlation.LargestCoefficient` | scripts/loopback_signal.py:108-108 | the lag returned has the greatest magnitude, the first such on a tie |
| `Correlation.Correlate` | scripts/loopback_signal.py:85-115 | every value is the direct overlap sum over the energy, the peak lies in -1..1, and the refinement is where the parabola through the peak and its neighbours turns, or nothing at either end |
| `Correlation.RefinementWithinHalf` | scripts/loopback_signal.py:109-114 | the parabola through the maximum moves it by at most half a sample |
| `Correlation.ParabolaTurns` | scripts/loopback_signal.py:109-114 | no point of that parabola lies beyond its value at the refined lag |
| `CrossCorrelation.CoefficientInRange` | scripts/loopback_signal.py:106-107 | Cauchy-Schwarz over the truncated overlap |
| `CrossCorrelation.DelayCorrelatesFully` | scripts/loopback_signal.py:85-92 | a delay that loses nothing has coefficient one at its own lag |
| `Correlation.DelayIsFound` | scripts/loopback_signal.py:108-115 | then the reported peak has magnitude one |
| `DelaySlope.Fit` | scripts/loopback_signal.py:144-155 | fewer than two points or equal x are refused; no other line misses the points by less |
| `MixModel.HeldByLast` | src/oscmix_desk/base.py:15-21 | on a folding device the last write owning a coefficient decides it, whatever was there |
| `MixModel.DeclaredLinksHold` | src/oscmix_desk/model.py:98-114 | after the link writes the device has every declared link |
| `Base.DeclaredLinks` | src/oscmix_desk/base.py:65-70 | a pair is in the table exactly when a route requires a state of it, and then with one that is required |
| `Base.BaseEntries` | src/oscmix_desk/base.py:78-96 | the nested loops list exactly the silent entries, in block order, of the matrices the base clears |
| `Base.EntriesAreTheSilencedCells` | src/oscmix_desk/base.py:84-95 | those are the registers of the silenced matrices that no route sets, and no others |
| `Base.ListedExactly` | src/oscmix_desk/base.py:51-53 | with no route a cell is listed exactly for clear-inputs, clear-submixes and daw where it is an input's, for straight-playback, clear-submixes and daw where it is a playback's, and never for an output's or for keep |
| `Base.NoRegisterTwice` | src/oscmix_desk/base.py:78-96 | on a device that lists no channel twice, none of them is listed twice |
| `Base.SilenceNeverFoldsOntoARoute` | src/oscmix_desk/base.py:15-21 | no silence write folds onto a register a route sets, in any state of the undeclared links |
| `Base.EveryCoefficientIsWritten` | src/oscmix_desk/base.py:84-95 | every coefficient of a silenced matrix is owned by a register the desk writes |
| `Base.BaseDeterminesTheMatrix` | src/oscmix_desk/base.py:78-96 | the silenced matrices end the same whatever the device held and however undeclared pairs are linked, silent unless a route owns them |
| `Base.OtherMatricesStay` | src/oscmix_desk/base.py:51-53 | a matrix the base does not clear keeps what the device held wherever no route writes |
| `Base.ComparedMeansAlwaysReported` | src/oscmix_desk/base.py:18-21 | a silent register is compared exactly when the device reports it in every agreeing link state |
| `Mirrors.ExpandMirrors` | src/oscmix_desk/mirrors.py:56-95 | it succeeds exactly for expandable mirrors and then returns the routes and each mirror's copies; each refusal has its own cause, a route's being that of the first route that does not suit |
| `Mirrors.ExpansionMeaning` | src/oscmix_desk/mirrors.py:82-95 | an expanded route is a declared one or a copy for some mirror of its output |
| `Mirrors.MirrorCarriesItsSource` | src/oscmix_desk/mirrors.py:56-95 | a mirror target carries its source's routes and nothing else |
| `BaseRoutes.BaseRoutes` | src/oscmix_desk/base.py:145-183 | every added route is accepted at its own pair, and a refusal is that of the first pair refused |
| `BaseRoutes.PairRoutes` | src/oscmix_desk/base.py:163-182 | one pair's routes, or its refusal, after checking every pair it would link anew |
| `BaseRoutes.RoutesAtAccepted` | src/oscmix_desk/base.py:160-183 | an accepted route wants what is declared, hits no taken cell and no mirror, and whatever it links anew is set alike, with its mirror's target |
| `BaseRoutes.AddedExactly` | src/oscmix_desk/base.py:109-122 | a pair that is not refused gets exactly the routes there is room for: 0 dB and centred, one linked pair, or beside mono playback each free channel on itself |
| `BaseRoutes.RefusedExactly` | src/oscmix_desk/base.py:109-174 | each refusal of a pair, with the condition on the desk it is for, in the order they are tried |
| `BaseRoutes.SetAlikeMeaning` | src/oscmix_desk/base.py:99-106 | set alike means every option has one value on both channels |
| `BaseRoutes.BaseKeepsMirrors` | src/oscmix_desk/base.py:125-142 | routes that could be mirrored still can with the base's added |
| `BaseRoutes.BaseKeepsLinkAgreement` | src/oscmix_desk/base.py:109-122 | declared and base routes agree on every pair's link |
| `BaseRoutes.ExpansionKeepsLinkAgreement` | src/oscmix_desk/config.py:507-531 | the mirrored desk still passes the link check |
| `BaseRoutes.DeskWide` | src/oscmix_desk/config.py:384-394 | accepted routes and base can be mirrored, agree on links, and each target carries its source's routes only |
| `BaseLinks.NewLinksAreAlikeExactly` | src/oscmix_desk/base.py:172-174 | the base links only pairs set alike if and only if of two mirrors of a pair it plays linked the earlier one's target is set alike |
| `BaseLinks.PlayedIsLinked` | src/oscmix_desk/base.py:160-174 | a pair the desk leaves free and undeclared, and the base has, is linked by it |
| `BaseLinks.LinkedIsPlayed` | src/oscmix_desk/base.py:160-174 | and no other output pair is |
| `BaseLinks.TwoMirrorsEscapeTheCheck` | src/oscmix_desk/base.py:156-156 | an accepted, expandable desk whose base newly links a pair with two volumes |
| `Dump.MixEntries` | src/oscmix_desk/dump.py:94-110 | exactly the audible well-formed cells, and one omission per malformed one |
| `Dump.MixCellExactly` | src/oscmix_desk/dump.py:70-91 | which reports are audible, with which level and balance, which are silent, and that all others are malformed |
| `Dump.CanonicalizeBalancedCells` | src/oscmix_desk/dump.py:222-245 | linked aliases are folded exactly when every balance agrees, and each contradiction is named once |
| `Dump.ReadRoutes` | src/oscmix_desk/dump.py:279-322 | cells in order become the routes of the cells no earlier reading used up |
| `Dump.ClassifiedExactly` | src/oscmix_desk/dump.py:281-321 | how a cell is read, by the links reported of its pairs, its place on them, its level and balance |
| `Dump.RoundedToNearest` | src/oscmix_desk/dump.py:286-317 | a level is read to the nearest tenth, a tie to the even one |
| `Dump.RoutesFromObserved` | src/oscmix_desk/dump.py:256-322 | for any reports the result is such a reading |
| `Dump.EachCellOnce` | src/oscmix_desk/dump.py:279-322 | every audible cell left after folding is in exactly one route or named by exactly one omission |
| `Dump.LinkedAsReported` | src/oscmix_desk/dump.py:47-62 | a link is known exactly from a 0 or 1 the left channel reports and the right one does not contradict |
| `Dump.ReadLinksAreReported` | src/oscmix_desk/dump.py:279-322 | whatever link state a read route requires of a pair, the device reported of it |
| `Dump.UnreportedLinkIsNotRead` | src/oscmix_desk/dump.py:291-300 | a cell over an unreported link is in no route |
| `DumpRoundTrip.RoundTrip` | src/oscmix_desk/dump.py:256-322 | routes a device reports as written are read back as exactly those above the floor, with nothing omitted |
| `DumpFixedPoint.ReadingIsDeclarable` | src/oscmix_desk/dump.py:291-321 | what a reading returns could have been declared |
| `DumpFixedPoint.DumpIsAFixedPointExactly` | src/oscmix_desk/dump.py:260-265 | over whatever else the device reports, a second dump gives the same routes in the same order exactly when no reported cell rounds to the floor, and omits again what no route touched |
| `DumpFixedPoint.SecondReading` | src/oscmix_desk/dump.py:279-322 | cell by cell the second reading has the first one's routes above the floor and no others |
| `DumpFixedPoint.AliasesMustFollow` | src/oscmix_desk/dump.py:227-245 | a register of a rewritten linked block that says something else, with a balance, takes the block's route away |
| `DumpFixedPoint.LevelRoundsToTheFloor` | src/oscmix_desk/dump.py:260-265 | -64.96 dB is audible and read as the floor |
| `OperationLease.OneOwnerWrites` | patches/0003-coordinated-backend-and-gtk.patch:379-464 | in every run the writes of one generation come from one connection, or only from mixers while nobody owns |
| `LeaseProgress.DeskGetsThrough` | patches/0003-coordinated-backend-and-gtk.patch:351-464 | from wherever a run has come to with the lease free, a desk that connects, begins, writes and ends has exactly its burst carried out, in order, under a generation of its own, and leaves the lease free |
| `LeaseProgress.OperationGetsThrough` | patches/0003-coordinated-backend-and-gtk.patch:395-464 | the same of one already connected with nothing on its way |
| `LeaseProgress.MixerGetsThrough` | patches/0003-coordinated-backend-and-gtk.patch:437-447 | while nobody owns the lease, a mixer's valid write under the current generation is carried out |
| `LeaseProgress.ServedExactly` | patches/0003-coordinated-backend-and-gtk.patch:409-464 | one request: granted or refused, the owner and generation then, what is carried out, and what each connection is sent in which order |
| `LeaseProgress.DispatchedExactly` | patches/0003-coordinated-backend-and-gtk.patch:378-408 | a packet out of turn, before HELLO or a second HELLO loses the connection, and with it the lease; HELLO is answered and the lease's state told |
| `LeaseProgress.ObservedExactly` | patches/0003-coordinated-backend-and-gtk.patch:252-260 | an observation takes the next number and goes to everybody established who asked for its source |
| `LeaseClients.NoRunBreaksTheProtocol` | src/oscmix_desk/backend.py:276-325 | no run makes a desk or reader connection report a protocol error, on what it read or what is under way |
| `LeaseClients.BelievedLeaseIsHeld` | src/oscmix_desk/backend.py:341-347 | while the backend keeps a connection, the lease its client believes in is the one in force |
| `Protocol.HeardExactly` | src/oscmix_desk/backend.py:276-305 | which unsolicited packets a client takes and what it believes then |
| `Protocol.AnsweredExactly` | src/oscmix_desk/backend.py:307-373 | which replies it takes and what it believes then |
| `WriteAccounts.RunLogged` | src/oscmix_desk/backend.py:446-464 | in every run an OK answer means the write was carried out and any other answer means it was not, each at most once and in order |
| `Bursts.LoggedBurst` | src/oscmix_desk/backend.py:453-461 | what was carried out of a burst is its written paths in order, less at most an unacknowledged last one |
| `Bursts.WrittenIsWhatWasCarriedOut` | src/oscmix_desk/backend.py:432-464 | the same in every run of the system: every write carried out is called written, nothing unwritten was carried out |
| `Backend.Control.Submit` | src/oscmix_desk/backend.py:224-246 | a request is numbered and sent, or the connection is closed |
| `Backend.Control.TakeEvent` | src/oscmix_desk/backend.py:276-305 | an event is accepted exactly as the session allows; a violation or overflow closes the connection and queues nothing |
| `Backend.Control.Enqueue` | src/oscmix_desk/backend.py:296-303 | the byte counter is the sum over the queue and both bounds hold |
| `Backend.Control.Acknowledgement` | src/oscmix_desk/backend.py:307-325 | the first reply must fit the pending request; events on the way are taken; the loop ends |
| `Backend.Control.Beat` | src/oscmix_desk/backend.py:355-362 | a keepalive not acknowledged under the same lease closes the connection, and one that is does not |
| `Backend.Control.Heartbeat` | src/oscmix_desk/backend.py:355-362 | a keepalive is sent exactly when a lease is held and one is due |
| `Backend.Control.Begin` | src/oscmix_desk/backend.py:336-353 | on success nothing received before the acknowledgement is left to hand out; a refusal leaves the connection open; what each answer leads to |
| `Backend.Control.Finish` | src/oscmix_desk/backend.py:364-373 | success means one END under the held token was answered OK under a later generation, and is what such an answer leads to; the lease is gone either way |
| `Backend.Control.NextDelivery` | src/oscmix_desk/backend.py:386-399 | the oldest observation there is, or with nothing late or failing the first to come; nothing only where none is queued and none came in time |
| `Backend.Control.Messages` | src/oscmix_desk/backend.py:401-418 | every message of that delivery, all or none, where the device sent it; what does not decode ends the connection, and a queued one is always handed out |
| `Backend.Control.RequestDump` | src/oscmix_desk/backend.py:420-430 | on success nothing received before the acknowledgement is left to hand out; answered OK with nothing failing, it succeeds |
| `Backend.Control.Send` | src/oscmix_desk/backend.py:432-464 | written and unwritten divide the burst in order, the log shows which were answered, the cause is the last answer; with nothing late or failing all is written exactly when every write is acknowledged under the lease |
| `LeaseControl.EveryConnectionIsAControl` | src/oscmix_desk/backend.py:126-138 | in every run a connection's client and log are where the history of what it asked and heard leads |
| `LeaseControl.SendIsTrueOfTheRun` | src/oscmix_desk/backend.py:432-464 | a `Control` with a run's history: what its send calls written was carried out in order, but for at most an unacknowledged last one, and nothing it calls unwritten |
| `WriteJournal.RecordWritten` | src/oscmix_desk/journal.py:144-192 | the writes replace their registers' entries under the new stamp, or the file stays as it was; what is stored reads back exactly within the byte bound |
| `WriteJournal.ReadJournals` | src/oscmix_desk/journal.py:90-97 | per register the entry with the greatest stamp, the last file's on a tie |
| `WriteJournal.MergedIsTheLastWriteExactly` | src/oscmix_desk/journal.py:11-13 | the merge holds what a register's last record wrote exactly when no other user's last record of it has a greater stamp or an equal one in a later file, up to equal entries |
| `WriteJournal.RisingIsUnbeaten` | src/oscmix_desk/journal.py:90-97 | stamps that rise from user to user over one register are enough for that |
| `WriteJournal.MergedWasRecorded` | src/oscmix_desk/journal.py:90-97 | nothing is in the merge that no record wrote |
| `WriteJournal.OvertakenWrite` | src/oscmix_desk/journal.py:95-95 | of two users' writes the earlier one stays under a greater stamp, or an equal one in the later file |
| `DeskOperation.TraceLaws` | src/oscmix_desk/desk.py:1-7 | a corollary of the invariant for two places of a trace: one END at most and nothing written after it, nothing written after a failure, no END after an abort but a late one, every write under a lease, the lock released last after the record |
| `DeskOperation.SoundThen` | src/oscmix_desk/desk.py:155-176 | every effect an operation's marks allow keeps those laws |
| `DeskOperation.WroteStays` | src/oscmix_desk/desk.py:178-180 | a noted write keeps journal plus pending equal to everything acknowledged |
| `DeskOperation.RecordedStays` | src/oscmix_desk/desk.py:188-194 | storing what is pending keeps that too, unless it could not be stored |
| `DeskOperation.Desk.Open` | src/oscmix_desk/desk.py:100-148 | an operation that cannot open is closed, one that opens as a writer holds the lock |
| `DeskOperation.Desk.Begin` | src/oscmix_desk/desk.py:163-176 | the lease is taken at most once, never by a reader, and a refusal aborts |
| `DeskOperation.Desk.Apply` | src/oscmix_desk/desk.py:196-222 | once the lease is granted every write of the plan is the operation's next effect, in order, and is recorded on every way out; a raise or a stop aborts, and the answer is whether the plan is complete |
| `DeskOperation.Desk.Repair` | src/oscmix_desk/desk.py:247-255 | the repair's writes in order once the lease is granted; any error fails a writer, a failed write aborts it |
| `DeskOperation.Desk.Finish` | src/oscmix_desk/desk.py:263-269 | END is sent exactly when a lease is held and the connection is there, late where the operation was aborted, and the lease is given up first |
| `DeskOperation.Desk.Close` | src/oscmix_desk/desk.py:271-286 | exactly END where due, disconnect, store and release, in this order, and nothing on a second call |
| `DeskOperation.Desk.Record` | src/oscmix_desk/desk.py:188-194 | what is pending is stored or dropped, and nothing stays pending |
| `DeskOperation.Desk.JournalHoldsAll` | src/oscmix_desk/desk.py:178-194 | with every store succeeding, a closed desk leaves the last acknowledged write of every register |
| `Subscription.Setup.RemoveDefinitions` | packaging/repository/configure.py:90-109 | everything goes, sources before hooks, unless a definition is not registered or its backup exists; exactly the changed ones that are gone are kept aside, at every stop; a changed one disables |
| `Subscription.Setup.Begin` | packaging/repository/configure.py:112-118 | fenced, emptied and recorded exactly so, safe at every stop, the outcome of a later finish unchanged; refused exactly where a definition may not go |
| `Subscription.Setup.Define` | packaging/repository/configure.py:264-272 | ownership is on record before the file is there |
| `Subscription.Setup.UpdateCertificate` | packaging/repository/configure.py:149-174 | same primary merges, another replaces, and is retired before it is replaced; nothing else changes |
| `Subscription.Setup.Trust` | packaging/repository/configure.py:287-304 | what is left pending for zypp's own transaction and when rpm is told |
| `Subscription.Setup.Finish` | packaging/repository/configure.py:275-324 | complete, it leaves exactly the certificate, definitions, registration and pending key due and no fence; stopped or refused, the key has taken effect, not at all or by half; with nothing in the way it completes |
| `Subscription.PublishedExactly` | packaging/repository/configure.py:308-322 | what a subscription publishes: one source of the package's own manager, bound to the certificate under rpm, and the hook apt and dnf have |
| `Subscription.Setup.PackageFinish` | packaging/repository/configure.py:382-388 | safe at every stop, the target kept at every stop, reached on completion; with nothing in the way it completes |
| `Subscription.Setup.Enable` | packaging/repository/configure.py:383-388 | complete, the subscription is enabled, registered and published under the key asked for; stopped anywhere, a first part of its effects has been taken; with nothing in the way it completes |
| `Subscription.Setup.RefreshKey` | packaging/repository/configure.py:383-388 | complete, published again under the new key; stopped anywhere, before, half way or after; half way where apt is busy |
| `Subscription.Setup.Disable` | packaging/repository/configure.py:376-381 | complete, nothing is published, enabled or pending; stopped anywhere, disabled or as before |
| `Subscription.Setup.SyncNativeKey` | packaging/repository/configure.py:327-339 | outside maintenance a pending key that is the certificate registered and installed is imported, and nothing else is; no definition changes |
| `Subscription.Setup.Recover` | packaging/repository/configure.py:372-388 | after any attempts at any actions, stopped, refused or complete, one finish leaves what the effects taken lead to, unless one that was to change the primary did not complete |
| `Subscription.FinishesChangeNothing` | packaging/repository/configure.py:281-286 | that is what the administrator's effects alone lead to, without the finishes in between |
| `Subscription.HalfAKeyChangeIsHarmlessExactly` | packaging/repository/configure.py:149-174 | half a change of key leads to the old or the new outcome exactly when the key is of the primary on record, or the certificate is not, or the package's own key holds everything merged |
| `Subscription.HalfChanged` | packaging/repository/configure.py:281-286 | otherwise a finish refuses, or installs the package's key alone |
| `Subscription.StoppedKeyChange` | packaging/repository/configure.py:171-174 | two disks where a change of key was stopped, one refused and one that loses what was merged |
| `Subscription.Setup.KeyChangeWhileBusy` | packaging/repository/configure.py:217-227 | a change of primary while apt holds its lists is refused half made; where the primary on record is not the package's, every package-finish refuses from then on |
| `Subscription.OnCourse` | packaging/repository/configure.py:149-174 | stopped anywhere, a finish without an explicit key is on the way to the same certificate and definitions |
| `Subscription.RemovalKeepsTargetExactly` | packaging/repository/configure.py:93-109 | taking a definition away keeps the outcome exactly when it was as registered or another changed one remains |
| `Subscription.StoppedMaintenanceForgetsAnEdit` | packaging/repository/configure.py:101-118 | an edit set aside and not yet recorded is published over |
| `HostService.Service.MaintenanceBegin` | scripts/install-service.py:251-266 | the fence remembers the first begin's state through any number of repeats; complete, the service is stopped and under runit kept down, and with nothing failing it completes |
| `HostService.Service.MaintenanceFinish` | scripts/install-service.py:267-286 | the service starts again exactly when it was active and enabled at the first begin and no stop or disable came since; refused exactly before the maintenance was begun or under the package's fence |
| `HostService.Service.Update` | scripts/install-service.py:276-280 | the adapters are replaced under a fence that stays, and under runit the service is kept down |
| `HostService.Service.NativeStart` | scripts/install-service.py:282-285 | the native start happens only without either fence and with the marker |
| `HostService.Service.Stop` | scripts/install-service.py:331-336 | a stop during maintenance is remembered before the service is stopped |
| `HostService.Service.Enable` | scripts/install-service.py:302-322 | refused during maintenance; complete, marked, linked and started once, and with nothing failing it completes |
| `HostService.Service.Disable` | scripts/install-service.py:287-301 | the marker goes before anything else wherever it stops, the fence stays; complete, stopped and unlinked where the manager's command worked |
| `Osc.DecodeEncode` | src/oscmix_desk/osc.py:18-84 | decoding undoes encoding for every message with NUL-free ASCII strings |
| `Osc.EncodeDecode` | src/oscmix_desk/osc.py:46-84 | what the decoder accepts is the one encoding of what it returns |
| `Osc.DecodeIsInjective` | src/oscmix_desk/osc.py:56-84 | no two byte strings decode alike |
| `Osc.EncodingAligned` | src/oscmix_desk/osc.py:18-43 | an encoding is a multiple of four bytes and never empty |
| `Osc.EncodeOsc` | src/oscmix_desk/osc.py:24-43 | the loop writes the encoding, or refuses an argument it cannot write |
| `Osc.DecodeString` | src/oscmix_desk/osc.py:46-53 | the string before the first NUL and the aligned offset after its padding |
| `Osc.DecodeOsc` | src/oscmix_desk/osc.py:56-84 | the loop over tags and offset computes the decoding |
| `OscBundle.ReadElements` | src/oscmix_desk/osc.py:110-118 | the elements in wire order, or nothing for framing that does not hold |
| `OscBundle.IterOscMessages` | src/oscmix_desk/osc.py:87-119 | the explicit stack yields the recursive flattening, and ends by a byte measure |
| `OscBundle.DecodeDelivery` | src/oscmix_desk/osc.py:122-124 | every message of a delivery or none |
| `OscBundle.AllOrNone` | src/oscmix_desk/osc.py:122-124 | it decodes exactly when every part does, part by part in order |
| `OscBundle.DeliveredTree` | src/oscmix_desk/osc.py:87-124 | a tree of messages, however deep, arrives as its messages from left to right |
| `Peaksafe.ChangedOutputs` | src/oscmix_desk/peaksafe.py:39-53 | an output counts exactly when it or its partner is written, or a channel setting is heard everywhere |
| `Peaksafe.ChangedExactly` | src/oscmix_desk/peaksafe.py:39-53 | the same in terms of written paths and pairs |
| `Peaksafe.ReportingOnes` | src/oscmix_desk/peaksafe.py:56-70 | an output is quieted exactly when it reported a usable volume |
| `Peaksafe.Switch.SendHeard` | src/oscmix_desk/peaksafe.py:116-117 | at every step of the inner send every quieted output is at the floor |
| `Peaksafe.Switch.SendQuietly` | src/oscmix_desk/peaksafe.py:88-125 | exactly the changed outputs of the device with a usable report are quieted, the last reports with what the read-back added; plain exactly where there is none; and where each way out leaves the registers |
| `Peaksafe.SwitchRefinesPlain` | src/oscmix_desk/peaksafe.py:109-125 | complete, every register is as after the plain plan, an undeclared quieted volume as reported |
| `Peaksafe.TrueReportsMakeItPlain` | src/oscmix_desk/peaksafe.py:94-125 | where the reports were true the two switches end alike |
| `Peaksafe.FailedSwitchGivesBack` | src/oscmix_desk/peaksafe.py:118-124 | after an inner failure anywhere each volume given back ends declared, else reported |
| `Peaksafe.FailedQuietingGivesNothingBack` | src/oscmix_desk/peaksafe.py:115-115 | a failure while pulling down leaves exactly the reached outputs at the floor |
| `Peaksafe.VolumesStayDownExactly` | src/oscmix_desk/peaksafe.py:16-17 | such a failure changes nothing exactly when every reached output was already there |
| `Peaksafe.OneOutputStaysDown` | src/oscmix_desk/peaksafe.py:115-115 | an output at -10 dB left at the floor |
| `ReadBack.Observation.Absorb` | src/oscmix_desk/observation.py:46-77 | after every report the sets are those the last reports decide |
| `ReadBack.Observation.LatestExactly` | src/oscmix_desk/observation.py:46-51 | the last report is remembered, exactly of the paths expected, depended on or noted |
| `ReadBack.ArgsAreValid` | src/oscmix_desk/observation.py:79-103 | the loop over tags and arguments decides validity |
| `ReadBack.ConfirmedExactly` | src/oscmix_desk/observation.py:46-77 | what a report has to be to confirm a path, and when it counts for nothing, is malformed or differs |
| `ReadBack.ValidExactly` | src/oscmix_desk/observation.py:79-103 | when one argument is valid: a mix level, a balance, a scalar of its domain, an int32 however written, a link of 0 or 1 |
| `ReadBack.IntegerExactly` | src/oscmix_desk/numeric.py:50-55 | an argument is the int32 it equals, as an integer or a float |
| `ReadBack.OnlyTheLastReportCounts` | src/oscmix_desk/observation.py:28-29 | two histories that end alike on a path classify it alike |
| `ReadBack.Observation.Partition` | src/oscmix_desk/observation.py:105-107 | confirmed, mismatched and unobserved divide the expected paths, invalid inside mismatched |
| `ReadBack.Observation.CompleteMeansAll` | src/oscmix_desk/observation.py:109-111 | the count alone tells that everything was confirmed |
| `SwitchOutcome.CheckedIsAcceptable` | src/oscmix_desk/profiles.py:316-352 | a completed read-back always gives a valid outcome |
| `SwitchOutcome.WrittenIsAcceptable` | src/oscmix_desk/profiles.py:291-313 | a failed application always gives a valid outcome |
| `SwitchOutcome.EveryOutcomeIsAcceptable` | src/oscmix_desk/outcome.py:147-203 | any switch's outcome, through persistence and hand-over, is valid exactly when the error it quotes has a text |
| `SwitchOutcome.OutcomeTellsTheReadBack` | src/oscmix_desk/profiles.py:316-352 | read back, a switch is verified exactly when nothing differs and nothing is missing, mismatched exactly when something differs, and names the registers, and is persisted exactly as the marker took effect |
| `SwitchOutcome.OutcomeTellsTheUnread` | src/oscmix_desk/profiles.py:262-288 | not read back, every register is unverified for the reason there is |
| `SwitchOutcome.OutcomeTellsTheFailure` | src/oscmix_desk/profiles.py:246-313 | no further than the writes, it is refused, or partly written and names the paths it did and did not reach |
| `SwitchOutcome.ReloadFailedExactly` | src/oscmix_desk/profiles.py:502-543 | a reload counts as failed exactly where a service had to follow, was not known to serve another desk, and refused |
| `SwitchOutcome.RefusedExactly` | src/oscmix_desk/profiles.py:246-288 | a corollary: when a switch is refused, and what a committed or handed-over one implies |
| `SwitchOutcome.ObservedIsSound` | src/oscmix_desk/verify.py:304-306 | an observation window's sets are a sound read-back |
| `SwitchOutcome.Validate` | src/oscmix_desk/outcome.py:147-203 | the constructor's checks accept exactly the acceptable outcomes, and each complaint is true of what it refuses |

## Left out

- Float rounding, `cmath`, and the numeric error of the transform: exact reals with roots and square root as parameters.
- Route names, volumes and comments of a dump, and rendering: text.
- `Mirrors.ExpandMirrors`: works on parsed mirrors; parsing and alignment of channels are preconditions.
- `Correlation.Correlate`: takes the square root as a function that squares back, for the energies it is given.
- Channel state, global settings and the register table of `devices.py`: the device is channel lists, and a table of flags in `ReadBack`.
- `reconcile.py`, `routing.py`, `verify.py` and `autogain.py` themselves: plans, phases and the barrier are parameters of the operations above.
- Real time: acknowledgement deadlines, heartbeat cadence, write pace and lease clocks are questions answered either way.
- Sockets, peer credentials and the handshake's payload (epoch, name, version): a handshake succeeds or fails.
- `Backend.Control.Send`: messages that cannot be encoded at all are not part of it.
- Keeping a refused refresh of a mixer for later, and the mixers' own behaviour: a mixer connection may send anything.
- The record of device reports beside the journal, and the connect check: they carry no write.
- `WriteJournal.MergedIsTheLastWriteExactly`: for records that could be stored and read again; stamps compare as times, their text form of fixed width is not modelled.
- `Subscription.Setup.UpdateCertificate`: key material is a set of packets, two digests never collide, and a fingerprint's spelling is not checked; a certificate always comes with a fingerprint.
- The OSTree refusal, status output and file permissions of the subscription tool.
- `HostService.Service.Enable`: waiting for runit's supervision is a step that may fail; resume and reload never start the service and are not modelled, nor are install and remove.
- Package fences that appear while a service action is running: the fence is read where the source reads it.
- `Osc.EncodeOsc`: arguments carry their own type, so a tag string of another length or kind cannot be written down.
- `ReadBack.Observation.Absorb`: whether a report satisfies the wanted value, and a scalar domain's own check, are functions given with the table.
- `SwitchOutcome.EveryOutcomeIsAcceptable`: flags and paths are typed, so the type errors of the constructor cannot arise.
