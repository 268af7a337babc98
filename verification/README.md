# Arena, verified

Arena is an authoritative multiplayer shooter: a Go server steps one world per room at
30 ticks a second, sends every client delta-compressed snapshots of what it may see, rewinds
targets to what a shooter saw, and records sessions for replay; a browser client predicts its
own player, and bots find their way with A*. This project models that logic in Dafny and
proves what it is relied on for. Reals stand for floats; the square root, sine, cosine and the
seeded generator are parameters with only the properties named in `Arena.EnvOk`.

How it is built:

- **Specification and state.** What changes things in place is a class (`CellHeap`,
  `BaselineRing`, `Session`, `Reconstructor`, `Client`, `HitGrid`, `World`, `Limiter`, `Store`,
  `Service`, `Predictor`) or a method over arrays and loops, each proved equal to a function on
  values; the theorems are about those functions and about runs of them.
- **Navigation**: `CellHeap`, `NavGrid`, `NavSearch`, `NavPath`.
- **Snapshots**: `Wire`, `SnapshotCodec`, `Delta`, `Reconstruct`, `SnapshotProtocol`,
  `SnapshotFreshness`, and `Publication`, which shows that what a room sends of a reachable
  world is a view the protocol can handle.
- **Arithmetic and geometry**: `Division`, `Reals`, `Walls`, `Segments`, `Movement`.
- **The world**: `Arena` (data), `Ids`, `HitGrid`, `Rules` (every step as a function), `World`
  (the same steps in place), `WorldInvariant`, `Sessions` (whole runs), `Chronicle` (what the
  events of a tick account for), `Lives`, `Posthumous` (one run worked out), `History`,
  `CaptureTheFlag`, `Reissue` (how its condition fails), `Replay` (recorder and replayer).
- **What the rules come to**, in numbers a player could check: `FairPlay` (hits, blasts, winners),
  `Ballistics` (volleys, their spacing over a run, what each shot does), `GameModes` (zones,
  pickups, flags, lives, the clock of the match).
- **Files and messages**: `ClientCodec`, `ReplayCodec`.
- **Prediction**: `Prediction`, the browser against one player's life on the server; `Journey`,
  which shows that the real tick moves a living player by its queued inputs and by nothing else;
  and `Lockstep`, which puts the two together: whoever joins the room or is spawned there lives
  such a life, and its prediction speaks of the real world.
- **Services**: `RateLimit`, `RefreshTokens`, `TokenFamilies`.

Five things the source relies on turn out to hold only under a condition; each has an exact
statement and a concrete failure:

- A retry at exactly the wait the limiter reports succeeds if and only if no fraction of a
  nanosecond was dropped (`RateLimit.ToldWait`, `RateLimit.ToldTooEarly`).
- A recorded session survives the replay file if and only if every accepted name has at most 16
  bytes (`ReplayCodec.SessionSurvivesIff`). Names are limited to 16 characters, so a guest with nine
  Cyrillic letters makes the recording unreadable (`ReplayCodec.CyrillicNameIsLost`).
- The flags of a match in play stay sane throughout a run if and only if no join hands the id of a
  carrier that left to the flag's own team (`CaptureTheFlag.RunSaneIff`); `JoinKeepsSaneIff` says when
  one join does. Joins and leaves alone, before the next tick, lead there from every world with a
  carried flag (`Reissue.StaleIsNear`), and `Reissue.ReissuedCarrier` is a run from an empty room to
  wrong flags.
- After a respawn the browser's prediction is right from the start if and only if nothing it sent
  before it heard of the spawn holds a direction, and no snapshot of its earlier life can still come
  in that shows it elsewhere (`Prediction.PredictionIsExactIff`, `EarlyInputCorrects`). Otherwise it is
  right from the first snapshot on that covers those inputs, unless they left a dash running
  (`SettledIsExact`); for a client that sent nothing since, that is exact (`SettledIsExactIff`,
  `DashMisleads`). After a first join it is right always (`FirstJoinIsExact`).
- A dead player has no health if and only if it reached no milestone since it died, and full health
  otherwise (`Lives.DeadHealth`); `Posthumous.PosthumousRun` is a run that ends with a dead player in
  full health.

## Model

| member | source | states |
|---|---|---|
| CellHeap.CellHeap.Swap | internal/bot/ai.go:429-432 | both slices exchange the same two places, so cells keep their estimates |
| CellHeap.CellHeap.Push | internal/bot/ai.go:391-403 | the heap order is kept and exactly one (cell, f) pair is added |
| CellHeap.CellHeap.Pop | internal/bot/ai.go:405-427 | the heap order is kept and the pair taken out has the least f of all |
| CellHeap.SiftUpStep | internal/bot/ai.go:394-402 | one exchange with the parent moves the only violation up |
| CellHeap.SiftDownTurn | internal/bot/ai.go:411-425 | one turn of sifting down moves the only violation to the smaller child |
| CellHeap.RootIsMinimum | internal/bot/ai.go:405-408 | the root of a heap is least among all entries |
| NavGrid.HeuristicBounds | internal/bot/ai.go:188-194 | the octile estimate is never negative, bounded by the grid, and 0 at the target |
| NavGrid.HeuristicConsistent | internal/bot/ai.go:188-194 | the estimate drops by no more than the cost of a legal move |
| NavGrid.PrefixEstimate | internal/bot/ai.go:135-185 | along any route, cost so far plus estimate never exceeds the whole cost |
| NavGrid.EstimateIsExact | internal/bot/ai.go:188-194 | where nothing is in the way the estimate is exactly what a cheapest route costs |
| NavGrid.OpenIsMove | internal/bot/ai.go:160-184 | a direction the loop tries is a legal move: on the grid, free, no corner cut |
| NavGrid.MoveIsOpen | internal/bot/ai.go:160-184 | every legal move is one of the eight directions the loop tries |
| NavSearch.PoppedGoalIsOptimal | internal/bot/ai.go:135-185 | when the goal is popped, no route is cheaper, stale entries notwithstanding |
| NavSearch.EmptyHeapMeansNoRoute | internal/bot/ai.go:135-185 | when the heap runs empty, there is no route at all |
| NavSearch.ImprovedTree | internal/bot/ai.go:172-182 | recording a better predecessor keeps the search tree well founded |
| NavSearch.ImprovedFrontier | internal/bot/ai.go:172-182 | every known cell stays relaxed or waits in the heap with its exact estimate |
| NavSearch.ChainIsRoute | internal/bot/ai.go:196-213 | following predecessors back from a known cell gives a legal route |
| NavSearch.ChainIsShortest | internal/bot/ai.go:135-213 | that route has minimum cost once the goal is popped |
| NavGrid.Nav.CellCoord | internal/bot/ai.go:78-93 | the column or row whose stretch of the map holds the coordinate, the nearest one outside the map |
| NavGrid.Nav.Center | internal/bot/ai.go:95-97 | a point inside the cell, as far from its left side as from its right, from top as from bottom |
| NavPath.NewNav | internal/bot/ai.go:56-73 | a cell is blocked exactly when an inflated obstacle overlaps it |
| NavPath.OverlapIsNear | internal/bot/ai.go:56-73 | that is, exactly when some inner point of the cell is nearer than 22 to the obstacle on both axes |
| NavPath.NearestFree | internal/bot/ai.go:101-118 | the free cell of the smallest ring, first in scan order; the cell itself on a full grid |
| NavPath.NearestIsUnique | internal/bot/ai.go:101-118 | that description fits only one cell |
| NavPath.Reconstruct | internal/bot/ai.go:196-213 | one point in the middle of each cell of the chain after its start, the last one replaced by the target |
| NavPath.Path | internal/bot/ai.go:135-185 | nil exactly when no route joins the snapped cells; else each point before the last lies in the middle of a cell, consecutive ones in cells joined by a legal move, first from the snapped start, along a cheapest route, and the last is the target; terminates on every grid |
| NavPath.LegsAreClear | internal/bot/ai.go:49-213 | walking straight from one such point to the next never comes nearer than 22 to an obstacle |
| NavPath.Search | internal/bot/ai.go:149-185 | the loop ends, by the sum of scores and the heap size, with that answer |
| NavPath.Expand | internal/bot/ai.go:166-183 | after all eight directions the popped cell is relaxed and the frontier still covers |
| Wire.QuantizeIsStable | internal/protocol/quantize.go:12-44 | quantizing what was dequantized changes nothing |
| Wire.CoordError | internal/protocol/quantize.go:12-26 | on the map a coordinate moves by at most half a quantum |
| Wire.VelError | internal/protocol/quantize.go:28-44 | up to 2047 units a second so does a velocity |
| Wire.EmptyMaskMeansAlike | internal/protocol/quantize.go:52-73 | the mask is empty exactly when both entities look the same on the wire |
| Wire.PatchRestores | internal/protocol/quantize.go:52-73 | the masked fields laid over the old wire entity give the new one |
| Wire.LittleEndian | internal/protocol/codec.go:394-435 | the least byte comes first |
| SnapshotCodec.RecordLayout | internal/protocol/codec.go:427-462 | where each field of a record lies; a delta record with all fields marked differs from a full one by its mask |
| SnapshotCodec.AppendEntityDelta | internal/protocol/codec.go:440-462 | appends id, mask and exactly the marked fields |
| SnapshotCodec.AppendSnapshot | internal/protocol/codec.go:394-424 | appends the whole layout, or names the limit that is exceeded |
| SnapshotCodec.DecodeServer | internal/protocol/codec.go:144-243 | the cursor loops compute the layout's parse, for every input |
| SnapshotCodec.DeltaRecordRoundTrip | internal/protocol/codec.go:23-44 | the mask-driven cursor takes exactly the bytes a delta record was written with |
| SnapshotCodec.FullRoundTrip | internal/protocol/codec.go:427-435 | full records come back quantized, and nothing of what follows is touched |
| SnapshotCodec.RoundTrip | internal/protocol/codec.go:144-424 | decoding undoes encoding up to quantization, for every full and delta snapshot within the limits |
| Delta.BaselineRing.Put | internal/game/delta.go:40-45 | overwrites the slot of this tick and no other |
| Delta.BaselineRing.Get | internal/game/delta.go:51-57 | the view stored under exactly this tick, if it is still there |
| Delta.RingKeeps | internal/game/delta.go:40-57 | a view is found until a tick 16 apart overwrites it |
| Delta.KeyIdentifies | internal/game/delta.go:62-64 | keys are equal exactly for equal kind and id |
| Delta.DiffEntities | internal/game/delta.go:83-112 | the merge yields, entity by entity, the changed ones with their masks and the ids gone |
| Delta.Session.HandleAck | internal/game/room.go:491-506 | the acknowledged tick never goes back and never into the future |
| Delta.Session.SendSnapshot | internal/game/room.go:691-736 | what the receiver decodes is a snapshot of this tick with this acknowledged input number, either the whole quantized view or fewer records against the acknowledged tick; it becomes a base only when queued |
| Delta.SnapshotQueue.Enqueue | internal/game/session.go:239-263 | whatever the write pump takes meanwhile, the new snapshot always gets in, and at most the oldest one is dropped, only from a full queue |
| Delta.SnapshotIsEncodable | internal/game/room.go:691-736 | the snapshot the room builds can always be encoded, and tick 0 never has a base |
| Delta.EmptyBaseIsFull | internal/game/room.go:691-714 | an empty stored view is treated like none |
| Reconstruct.Reconstructor.Remember | internal/bot/reconstruct.go:103-112 | stores the set, evicting the oldest beyond 32 |
| Reconstruct.Reconstructor.Apply | internal/bot/reconstruct.go:37-100 | rebuilds removals first, then changes, or refuses when the base is unknown |
| Reconstruct.ListingIsUnique | internal/bot/reconstruct.go:85-99 | a set of entities has only one listing in key order |
| Reconstruct.FullMirrors | internal/bot/reconstruct.go:37-100 | a full snapshot rebuilds the view as quantized |
| Reconstruct.DeltaMirrors | internal/bot/reconstruct.go:37-100 | a delta over the quantized base rebuilds the quantized view, also when an id changed kind |
| SnapshotProtocol.Client.ReadSnapshot | internal/bot/bot.go:131-159 | skips other, stale and unusable messages; acknowledges what it returns; ready for the next call |
| SnapshotProtocol.RunInv | internal/game/room.go:691-736 | what every run over a losing, duplicating, reordering network keeps |
| SnapshotProtocol.ShownSnapshotsAreExact | internal/bot/bot.go:131-159 | every snapshot ever returned is exactly the server's quantized view of that tick, with the input number the server acknowledged at that tick |
| SnapshotFreshness.RateDivider.Tick | internal/game/room.go:124-138 | due exactly when the accumulated quota passes a whole send |
| SnapshotFreshness.SendsIsDue | internal/game/room.go:124-138 | 20 Hz on 30 Hz sends two ticks of three, equal rates every tick |
| SnapshotFreshness.RingIsYoung | internal/game/delta.go:35-57 | whatever tick the session started at, a base still in the ring is at most 32 ticks old at these rates |
| SnapshotFreshness.FreshSnapshotsAreNeverMissed | internal/bot/reconstruct.go:37-112 | for an honest client, whenever it joined, no snapshot that is not stale is ever dropped |
| SnapshotFreshness.SilenceMeansFullSnapshots | internal/game/room.go:691-736 | once acknowledgements are 32 ticks old every snapshot is full |
| Publication.AppendEntities | internal/game/world.go:473-504 | the living players in order, then the projectiles |
| Publication.EntitiesShow | internal/game/world.go:473-504 | every living player and every shot is published exactly where it is, which is where looking back and predicting take it, and nothing else is |
| Publication.ShownIsView | internal/game/room.go:593-632 | any selection of a sound world, sorted and clipped, has unique ids and ascending keys |
| Walls.ResolveWalls | internal/game/walls.go:60-65 | one pass over the walls in order |
| Walls.ResolveWallDistance | internal/game/walls.go:72-112 | pushed out of a wall means exactly the radius away from it |
| Walls.InsideAnyWall | internal/game/walls.go:116-127 | true exactly when some wall is nearer than the radius |
| Walls.OnePassClears | internal/game/walls.go:60-65 | for walls far enough apart one pass leaves every wall clear |
| Walls.ArenaIsSeparated | internal/game/walls.go:25-30 | the shipped layout is that far apart |
| Walls.ResolvedIsLegal | internal/game/systems.go:97-104 | clamping and one pass land on the map and clear of all walls, from anywhere |
| Segments.EntryIsFirst | internal/game/walls.go:156-192 | succeeds exactly when some t in [0,1] is in the box, and returns the least |
| Segments.FirstWallTimeIsFirst | internal/game/walls.go:135-151 | the earliest entry over all walls, none when no wall is met |
| Segments.SegmentWallHit | internal/game/walls.go:135-151 | the point of that entry |
| Segments.TestedPathIsClear | internal/game/combat.go:325-329 | before its end the tested path meets no inflated wall |
| Segments.HitIffWithin | internal/game/combat.go:468-478 | a hit exactly when some point of the segment is within the radius |
| Movement.Body.Step | internal/game/systems.go:55-105 | left lowers x, right raises it, up lowers y, down raises it, opposite keys cancel; 300 units a second, 2.6 times that in a dash, shortened on diagonals; a dash starts exactly when asked for, waited for and moving; with nothing in the way the player moves by velocity times dt; it ends in a legal place |
| Movement.MovedIsLegal | internal/game/systems.go:97-104 | whatever the state before, the position after is legal |
| Movement.MovedObeys | internal/game/systems.go:55-105 | all of this of any step, whatever the state before |
| Movement.DashesAreApart | internal/game/systems.go:55-96 | over any stream of inputs two dashes start at least 150 inputs apart, and each one speeds up exactly 11 |
| Ids.AllocIsExact | internal/game/world.go:647-673 | a fresh nonzero id; failure exactly when all 65535 are taken, and then nothing changed |
| HitGrid.CellCoordMonotone | internal/game/grid.go:32-41 | a larger coordinate never falls in an earlier column |
| HitGrid.WindowCovers | internal/game/combat.go:259-267 | the box contains the position at every rewind in the window |
| HitGrid.HitGrid.Build | internal/game/combat.go:215-234 | an id is filed in a cell exactly when its living player's window spans it |
| HitGrid.HitGrid.Query | internal/game/combat.go:240-250 | everything filed in the cells the box touches, and nothing else |
| HitGrid.CoversAfterDeaths | internal/game/combat.go:313-349 | deaths later in the tick leave the grid good enough |
| HitGrid.FindHit | internal/game/combat.go:275-307 | the victim a linear scan of the order would pick, from unsorted candidates with repetitions |
| World.World.constructor | internal/game/world.go:197-212 | an empty sound world with the flags at home |
| World.World.AllocID | internal/game/world.go:647-673 | scans at most 65535 ids from the cursor |
| World.World.AddPlayer | internal/game/world.go:309-333 | the newcomer under a fresh id in its place in the order; logged exactly when accepted; accounts do not matter |
| World.World.RemovePlayer | internal/game/world.go:336-347 | gone from map and order; unknown ids are no-ops and unlogged |
| World.World.EnqueueInput | internal/game/world.go:356-372 | queued and logged exactly when its number is new |
| World.World.SpawnPoint | internal/game/world.go:701-714 | the first clear throw of sixteen, else the resolved last one |
| World.World.TryFire | internal/game/combat.go:90-149 | cooldown, cap, rewind stamp and pellets; anti-cheat counters do not matter |
| World.World.SpawnProjectile | internal/game/combat.go:158-180 | one projectile under a fresh id, or none at the cap |
| World.World.ApplyDamage | internal/game/combat.go:390-417 | health, death, score, streak and the events in order |
| World.World.RecordKill | internal/game/killstreak.go:39-48 | streak, and the reward at a milestone |
| World.World.Explode | internal/game/combat.go:360-386 | splash on everyone eligible in reach, in order |
| World.World.StepProjectiles | internal/game/combat.go:313-349 | with the grid built once and deaths during the loop, exactly what a linear scan per projectile gives |
| World.World.Respawns | internal/game/world.go:425-430 | the dead whose time has come |
| World.World.StepPickups | internal/game/pickups.go:90-118 | ripening, and the taker of least id |
| World.World.StepHill | internal/game/hill.go:29-84 | a point for everybody of the one side that stands on the hill, while the match is on |
| World.World.StepDomination | internal/game/domination.go:49-107 | likewise at each of the three control points, in order |
| World.World.StepCTF | internal/game/ctf.go:74-171 | tending, touches and captures, in order |
| World.World.StepMatch | internal/game/match.go:25-121 | the phases, the winner by what the mode is about, and the fresh start |
| World.World.RecordHistory | internal/game/combat.go:448-454 | every position under the slot of the new label |
| World.World.Step | internal/game/world.go:383-457 | the whole tick, in the source's order; recording and accounts untouched |
| WorldInvariant.AddPlayerOk | internal/game/world.go:309-333 | a join keeps the world sound |
| WorldInvariant.RemovePlayerOk | internal/game/world.go:336-347 | a leave keeps the world sound |
| WorldInvariant.ApplyDamageOk | internal/game/combat.go:390-417 | damage keeps health within bounds for the living, and the roster |
| WorldInvariant.StepProjectilesOk | internal/game/combat.go:313-349 | projectiles keep distinct ids of their own through the in-place compaction |
| WorldInvariant.SpawnPointLegal | internal/game/world.go:701-714 | every spawn point is on the map and clear of walls |
| WorldInvariant.StepOk | internal/game/world.go:383-457 | one tick keeps the world sound and its roster and teams |
| Sessions.RunOk | internal/game/world.go:309-457 | every run of joins, leaves, inputs and ticks keeps a world sound |
| Sessions.ReachableIsSound | internal/game/world.go:309-457 | in every reachable world: ids nonzero and distinct, order ascending and equal to the players, the living have 1 to 100 HP, everybody in a legal place |
| Chronicle.StepBooks | internal/game/combat.go:390-430 | the events of a tick account for every life, every history and, unless a match starts, every score: one death per death, one kill for a present attacker that is not the victim |
| Chronicle.FlyAllFair | internal/game/combat.go:313-349 | shots only ever kill the living |
| FairPlay.HitCosts | internal/game/combat.go:390-417 | the whole effect of a hit: health less the damage, a death with its wait exactly when nothing is left, the frag and every third one's reward for a present attacker, the reports in order, and nobody else touched |
| FairPlay.NearerHurtsMore | internal/game/combat.go:378-385 | nearer to the centre a blast never hurts less |
| FairPlay.BlastExtremes | internal/game/combat.go:378-385 | full damage at the centre, none on the rim |
| FairPlay.TakerIsLeast | internal/game/pickups.go:103-116 | the pickup goes to the least living id on the spot, if anybody is |
| FairPlay.WinnerIsBest | internal/game/match.go:40-121 | without teams the winner has the highest score of what the mode is about, and the least id among equals |
| FairPlay.WinningTeamIsBest | internal/game/match.go:40-71 | with teams it is the team whose members have more of it in all, team 0 on a tie |
| FairPlay.ContestedZoneIsIdle | internal/game/hill.go:29-84 | whoever scores in a zone shares it with nobody of another side |
| FairPlay.OnePointATick | internal/game/domination.go:49-107 | the control points lie so far apart that nobody gets two points in a tick |
| FairPlay.JoinBalances | internal/game/world.go:678-691 | the player a join seats goes to the team with fewer members, to team 0 on a tie |
| Ballistics.TryFireIs | internal/game/combat.go:90-180 | nothing leaves before the wait is over or with 128 projectiles in the air; else one, three or five pellets leave 21 in front of the player at the weapon's speed, evenly spread around the aim, fewer only at the cap or without ids, and the wait of the weapon starts |
| Ballistics.OppositeAngles | internal/game/combat.go:125-149 | the fan is symmetric about the aim |
| Ballistics.VolleysAreApart | internal/game/combat.go:90-149 | over any run, within one life, no volley leaves before the wait the one before it began is over |
| Ballistics.FlyIsShot | internal/game/combat.go:313-386 | a projectile is stopped by the exposed player of least id within 20 of its tested path, as the shooter saw them; a bullet takes 25, 11 or 80 from that one alone, a rocket goes off there or at a wall; otherwise nothing happens and it flies on by velocity times dt until its life or the map ends |
| Ballistics.StepProjectilesIsVolleys | internal/game/combat.go:313-349 | a tick of all projectiles is that, one after the other |
| Ballistics.ExplodeBlasts | internal/game/combat.go:360-386 | a blast takes 65 at the centre, linearly less out to 130, from every exposed player in reach, touches nobody else, and pays its owner for each kill |
| GameModes.HillPays | internal/game/hill.go:29-84 | a point a tick on the hill exactly for the living within 300 of the middle whose side is there alone |
| GameModes.DominationPays | internal/game/domination.go:49-107 | the same, within 256, at each of the three points |
| GameModes.StepPickupTurns | internal/game/pickups.go:90-136 | an empty spot fills when its time has come; a full one goes to the least living id within 34, heals 50 or boosts for 180 ticks, and stays empty for 240 |
| GameModes.StepPickupsTurns | internal/game/pickups.go:90-118 | the five spots, one after the other |
| GameModes.StepCTFTurns | internal/game/ctf.go:74-171 | a tick of the flags: carried ones follow or fall, lie at most 600 ticks, are taken or brought home within 44, and count within 80 of one's own base with one's own flag home |
| GameModes.NoCaptureIsMissed | internal/game/ctf.go:144-170 | after the tick nobody stands who could still capture |
| GameModes.SpawnPointIsFirst | internal/game/world.go:701-714 | the first of sixteen throws that leaves 48 to every wall, else the last one pushed out; nothing is drawn after it |
| GameModes.RunQueues | internal/game/world.go:356-417 | in every run the numbers in a queue ascend strictly, so no input is applied twice or out of order |
| GameModes.JoinBrings | internal/game/world.go:309-333 | the newcomer's id is free, its health full, its place legal, its score empty; nobody else is touched |
| GameModes.RespawnsAre | internal/game/combat.go:420-430 | exactly the dead whose wait is over come back, in full health at rest in a legal place, shielded for 60 ticks |
| GameModes.StepMatchTurns | internal/game/match.go:25-105 | when its time has come a match ends with its winner for 300 ticks, or starts for 5400 with the flags home, all scores cleared and the living reborn |
| GameModes.ClockRuns | internal/game/match.go:25-105 | in every run the phase turns exactly at its tick and never between: 5400 ticks of match, 300 of break |
| Lives.RunFollowed | internal/game/combat.go:390-430 | no run breaks the rules of dying and spawning |
| Lives.DeathsAreApart | internal/game/combat.go:390-430 | two deaths of one player have a spawn between them, 60 ticks or more after the first |
| Lives.DeadHealth | internal/game/killstreak.go:39-48 | in every reachable world a dead player has no health exactly when it reached no milestone since its last death, and full health exactly when it did |
| Posthumous.PosthumousRun | internal/game/killstreak.go:39-48 | a run from an empty room: three rockets cross in one tick, and the owner of the last, dead by then, ends in full health |
| History.RunWatched | internal/game/combat.go:448-464 | in every run every ring agrees with what was published |
| History.TargetPosIsShown | internal/game/combat.go:436-464 | looking back 1 to 31 ticks gives the published position of that label, or the spawn point if it spawned since |
| History.RewindIsShown | internal/game/combat.go:436-442 | so does every rewind during `stepProjectiles`, after any deaths earlier in the tick |
| CaptureTheFlag.JoinKeepsSaneIff | internal/game/world.go:309-333 | a join keeps the flags sane exactly unless a flag's carrier is gone, its id is the next in line and the smaller team is the flag's own |
| CaptureTheFlag.RunSaneIff | internal/game/ctf.go:59-171 | over a run, the flags of a match in play are sane at every moment exactly when no such join happens during a match |
| CaptureTheFlag.ReissueLasts | internal/game/ctf.go:74-171 | after such a join the flags stay wrong through every tick that neither kills the new carrier nor ends the match |
| Reissue.StaleIsNear | internal/game/world.go:309-347 | from every sound world of a team game with a carried flag, joins and leaves alone lead to a world that hands the carrier's id to the flag's own team |
| Reissue.ReissuedCarrier | internal/game/ctf.go:74-171 | a run from an empty room: a flag is taken, the carrier's id is handed on before the next tick, and that tick leaves the flag with a living player of its own team |
| CaptureTheFlag.StepGood | internal/game/ctf.go:74-171 | one tick leaves the flags good if the match is on, with at most one capture |
| CaptureTheFlag.CapturesOnce | internal/game/ctf.go:145-170 | after a capture nobody else captures in the same tick |
| CaptureTheFlag.FlagsAreGood | internal/game/ctf.go:59-171 | after every tick of every run without such a join during a match: carriers present, alive, enemies, never of two flags; flags where they should be; one capture at most |
| Replay.Replay | internal/game/replay.go:283-327 | events before the step of their tick, the tail after the last; an impossible join or tick rate is an error |
| Replay.UnrecordedIsNoOp | internal/game/world.go:309-372 | what is not recorded changed nothing |
| Replay.StampsAscend | internal/game/replay.go:89-99 | later events are never stamped earlier |
| Replay.ReplayIsExact | internal/game/replay.go:283-327 | replaying the log of any run ends in the very same world |
| Replay.Perform | internal/game/room.go:462-512 | the world runs through any sequence of events and ticks, and its log grows by exactly what was accepted |
| Replay.Record | internal/game/world.go:217-299 | what a room records from its first event on replays to the world it ended with |
| ClientCodec.AppendInput | internal/protocol/codec.go:610-619 | the input's layout |
| ClientCodec.AppendJoin | internal/protocol/codec.go:622-639 | the join's layout, or which limit is exceeded |
| ClientCodec.InputRoundTrip | internal/protocol/codec.go:75-97 | an input decodes to itself, and in the older layout to itself without actions |
| ClientCodec.JoinRoundTrip | internal/protocol/codec.go:98-141 | a join comes back exactly when it fits and is valid UTF-8 |
| ClientCodec.AcceptedJoinsFit | internal/protocol/codec.go:98-141 | whatever is accepted as a join can be encoded and decoded again |
| ReplayCodec.Encode | internal/game/replay.go:102-151 | header and records in order |
| ReplayCodec.DecodeReplay | internal/game/replay.go:155-269 | versions 1 to 6, with every error in its place |
| ReplayCodec.EventBack | internal/game/replay.go:213-266 | each record of each version takes exactly the bytes it was written with |
| ReplayCodec.OlderFilesComeBack | internal/game/replay.go:155-269 | a log written by any of the versions 1 to 6 comes back, with the modes and actions that version had no room for off |
| ReplayCodec.DecodedIsStorable | internal/game/replay.go:155-269 | every decoded log has short names, a positive rate and a count that fits |
| ReplayCodec.ReplayRoundTrip | internal/game/replay.go:102-269 | decoding undoes encoding exactly for such logs |
| ReplayCodec.SessionSurvivesIff | internal/game/replay.go:102-327 | a recorded session comes back from its file exactly when every accepted name has at most 16 bytes, and then replays to its final world |
| ReplayCodec.CyrillicNameIsLost | internal/account/account.go:483-488 | a name of nine letters, which may be registered and joins as any other, is 18 bytes long and makes the file unreadable |
| Prediction.Predictor.UpdateDash | web/game.js:1538-1552 | the timers and whether this frame dashes |
| Prediction.Predictor.Press | web/game.js:1554-1587 | predict if there is anything to predict from, remember, send; the dead only send |
| Prediction.Predictor.OnSpawn | web/game.js:1293-1308 | starts over at the spawn point |
| Prediction.Predictor.OnDeath | web/game.js:1328-1339 | forgets what is pending and stops predicting |
| Prediction.Predictor.Reconcile | web/game.js:1427-1460 | drop what is acknowledged, replay the rest; a snapshot without the own player moves nothing |
| Prediction.SeqLEIsOrder | web/game.js:1420-1422 | the wrapping comparison is the order of numbers less than half the range apart |
| Prediction.StepMoveMirrors | web/game.js:194-211 | the browser's step, told the flag, is the server's step |
| Prediction.DashMirrors | web/game.js:1538-1552 | the browser's timers are the server's |
| Prediction.PredictionIsExactIff | web/game.js:1293-1587 | after a respawn the prediction is where the server will be, in every run, exactly when no input sent before the client heard of it holds a direction and no old snapshot that counts shows the player elsewhere |
| Prediction.EarlyInputCorrects | web/game.js:1293-1308 | one such input under way, and the snapshot that shows it moves the prediction |
| Prediction.SettledIsExact | web/game.js:1427-1460 | from the first accepted snapshot on that covers those inputs the prediction is exact and no snapshot moves it, unless they left a dash running |
| Prediction.DashMisleads | web/game.js:1538-1587 | after a dash left running, one frame to the right is predicted at the wrong speed |
| Prediction.SettledIsExactIff | web/game.js:1427-1587 | for a client that sent nothing since it heard of its spawn: exact in every run from a covering snapshot on, exactly when no dash was left running |
| Prediction.NoRequestNoDash | web/game.js:1554-1587 | no dash is left running by inputs that request none, and the dead request none |
| Prediction.FirstJoinIsExact | web/game.js:1262-1272 | on a first join the prediction is exact as soon as there is one |
| Journey.StepTells | internal/game/world.go:383-457 | after any tick: the queue is empty, the numbers are those of the player's turn, and the last death or spawn among the events tells whether it lives and where it stands |
| Journey.StepMovesByInputs | internal/game/world.go:383-417 | in a tick without its death or spawn a living player is moved by exactly its queued inputs, in order |
| Journey.StepRevives | internal/game/combat.go:420-430 | a player that a tick spawns and leaves alive stands at rest on the announced point |
| Lockstep.WorldIsLife | internal/game/world.go:309-457 | as long as a player lives, any run of the room is, for that player, a run of `Prediction.Live` |
| Lockstep.PredictionMeetsWorld | web/game.js:1427-1587 | so a right prediction stays the real world's player moved on by what is under way |
| Lockstep.JoinerIsPredicted | internal/game/world.go:309-333 | whoever joins any sound world: once the browser predicts, it predicts the world, and no snapshot moves it |
| Lockstep.RespawnLinks | internal/game/combat.go:420-430 | a tick that spawns a player starts such a life of it, at rest where the spawn was announced |
| Lockstep.SpawnedIsPredicted | web/game.js:1293-1308 | after a spawn in the real world, with nothing early that moves: the browser predicts the world from the moment it hears of it |
| Lockstep.SpawnedSettles | web/game.js:1427-1460 | in any case from the first covering snapshot on, unless a dash was left running |
| RateLimit.Limiter.Allow | internal/ratelimit/limiter.go:59-86 | refill, grant or the wait; everything passes when limiting is off |
| RateLimit.Limiter.Sweep | internal/ratelimit/limiter.go:90-100 | drops exactly the idle buckets, at most once a minute |
| RateLimit.SweptAreRecent | internal/ratelimit/limiter.go:90-100 | after a sweep every bucket left was used more recently than the burst takes to refill |
| RateLimit.SweepingIsInvisible | internal/ratelimit/limiter.go:59-100 | over any traffic the answers are those of a limiter that never sweeps |
| RateLimit.WindowBound | internal/ratelimit/limiter.go:59-86 | over any window a key gets at most burst plus refill |
| RateLimit.RetryIff | internal/ratelimit/limiter.go:74-85 | an undisturbed retry succeeds exactly from the exact wait on |
| RateLimit.ToldWait | internal/ratelimit/limiter.go:83-85 | never before the reported wait, always a nanosecond after, and at it exactly when nothing was rounded off |
| RateLimit.ToldTooEarly | internal/ratelimit/limiter.go:83-85 | three a second: the reported wait is too short |
| RefreshTokens.Store.RotateRefreshToken | internal/store/sql.go:311-353 | all of the transaction or none of it |
| RefreshTokens.Store.RevokeRefreshFamily | internal/store/sql.go:355-363 | the same tokens, those of the family all inactive, the ones that were before untouched, as is every other row |
| RefreshTokens.FamilyRevokedIff | internal/store/sql.go:355-363 | that description determines the table, and hashes stay unique |
| RefreshTokens.Service.Refresh | internal/account/account.go:214-267 | run alone: the minted token exactly for an active token in time of an existing account, which is then revoked for an active successor of 30 days in the same family; a revoked token leaves its family inactive; anything else changes nothing |
| RefreshTokens.Service.Logout | internal/account/account.go:271-286 | run alone: the family of a known token is inactive, an unknown one changes nothing |
| RefreshTokens.LogoutEndsSession | internal/account/account.go:271-286 | no token of the session is active afterwards |
| RefreshTokens.Service.IssueLogin | internal/account/account.go:414-445 | one new active row of 30 days, unless the hash is taken |
| RefreshTokens.Service.ResetPassword | internal/account/account.go:341-366 | a reset ends every session of the account, a refused one none |
| TokenFamilies.RotateSteps | internal/store/sql.go:311-353 | trades the one active token for another, or does nothing |
| TokenFamilies.NeverTwoActive | internal/account/account.go:214-286 | under every interleaving a family has at most one active token |
| TokenFamilies.DeadForever | internal/store/sql.go:311-373 | a family without an active token never regains one |
| TokenFamilies.ReuseKillsFamily | internal/account/account.go:223-231 | presenting a revoked token that is still stored kills its family for good, whatever happens in between and after |
| TokenFamilies.ExchangedOnce | internal/account/account.go:246-257 | at most one request ever gets a successor for a token; the others go on to kill the family |

## Left out

- Floats: positions, times and tokens are exact reals; rounding of float32 and float64, and the bit-for-bit equality of checksums, are not modelled; worlds are compared field by field.
- Trigonometry, the PCG generator and the square root are parameters.
- Wrap-around of ticks, sequence numbers, scores and timers: naturals without bound, except the 16-bit wrap of the id cursor, ring indices and every field on the wire.
- Players are values in the world's map, so aliasing of player pointers is not modelled; Go slices are sequences, so capacity and reuse are not either.
- World.World.StepProjectiles: the survivors are compacted in a local copy of the slice that is written back at the end, because nothing reads the slice in between.
- The scoreboard; dirty flags of broadcasts; names of weapons.
- The room's plumbing: sessions, spectators, reliable events, laggards, persistence, shutdown.
- Area of interest: any selection of the world's entities is allowed (`Publication.ShownIsView`), how the grid selects is not modelled.
- The library sort: any ordering by key (`Publication`), insertion by key (`Reconstruct`).
- The contents of server messages other than snapshots, and the JSON of the bots.
- Bot steering: when to follow a path, whom to fight, random goals.
- The browser's copy of the delta reconstruction, interpolation, smoothing of corrections, input devices and drawing.
- Prediction.PredictionIsExactIff: inputs in order and none dropped, positions not rounded on the wire, sequence numbers without wrap.
- Prediction.Predictor.Reconcile: compares unwrapped sequence numbers, see `Prediction.SeqLEIsOrder`; the visual smoothing of corrections is not modelled.
- CaptureTheFlag.FlagsAreGood: during the intermission flags may be stale, as in the source; the start of a match resets them.
- SnapshotCodec.DecodeServer: message types other than the snapshot are reported as such, without being parsed.
- Replay.Replay: returns the final world where the source returns its checksum.
- RateLimit.Limiter.Allow: the mutex is not modelled; the clock is a parameter, monotone in the theorems.
- Accounts, passwords, e-mail, bans, access tokens; hashes are opaque values; whether an account exists, and whom a password reset is for, are parameters.
- SQL engines and their isolation: each store call is one atomic step, as on SQLite's single connection; store errors are requests that end without effect.
- HTTP, WebSocket and WebRTC transports, configuration, metrics, tracing.
