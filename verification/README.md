# Proofs about the race, the Backlash board game, the world layout and the learning rollup

This project models six pieces of the repository's shared logic in Dafny and proves what they promise, mostly over
whole runs rather than single calls. `dafny verify dfyconfig.toml` checks everything.

**Race** (`RaceConstants`, `RaceModel`, `RaceLaps`, `RaceWindows`, `RaceSpeed`, `RaceControls`, `RacePhysics`,
`RaceRanking`). The racers of `shared/race` are objects of a class `Racer` that the physics updates in place; every
method is tied to a function on the value of its fields (`RaceModel`), and the theorems quantify over every sequence
of ticks, sprint taps, jump taps and move-key changes. Every tick makes for the speed of its gait, features fire once
per lap, a fall freezes the racer, sprinting is paid for, and a racer who holds the move key is home long before the
timeout.

**Backlash** (`BacklashRules`, `BacklashKey`, `BacklashRuns`, `BacklashCodec`, `BacklashMatch`, `BacklashEngine`,
`BacklashMatchRuns`, `BacklashTurns`). The move generator is compared with an independent statement of the rules; the
repetition key, the symmetry between the colors, reversibility, the life of the pieces and the length of jump chains
are proved for all boards; and the engine that the server runs is proved to end every match, to conserve overlings and
to draw exactly on real repetitions; and what each event makes of a match is stated in terms of the rules and of what
is on the board.

**Circuit** (`LoopPath`, `LoopTables`). The arc-length tables, built in place on arrays, with angle unwrapping,
rescaling and anchoring; the binary search; and the pose along any number of laps, on the centreline and in a lane.

**Village, orchard and zones** (`VillageLayout`, `VillageStreets`, `TreePositions`, `TreePlaces`, `Zones`,
`ScaleCache`). House placement and fence, tree packing, zones derived from the layout scale, and the listener cascade
that keeps the zones in step with it, whatever the other listeners throw, set, subscribe or unsubscribe on the way.

**Learning rollup** (`LearningRollup`, `LearningPercentiles`). Rolling a sample into a velocity bucket and purging it
again, once and over whole runs, and what the estimates say about the samples.

`Arithmetic` holds the facts on products and finite sets of numbers that the models share, `Sorting` a stable sort
with its proof, `Wrappers` an option type.

Numbers are exact reals. The circuit, the village and the zones take the library's sine, cosine, arctangent and
hypotenuse as parameters (`LoopPath.Trig`) of which only the laws in `LoopPath.Lawful` are used. Exceptions and
refused calls are modelled as results. The clock, the environment flag and the locale's string order are parameters.

## What the proofs found

- A step of the race that is as long as the loop, or longer, is never counted right by the loop-space test: it loses
  a meeting with every feature (`RaceLaps.SeenAsMetIffShort`). Ticks are shorter than that by a factor of more than 200.
- The comment on `lowerIndex` promises the largest index whose arc is not beyond the argument; at the end of the table
  the code stops one index earlier. `LoopPath.BracketBrackets` gives the exact condition, `LoopPath.LastIndexIsNotFound`
  the input. No caller reaches that case.
- The purge reads percentiles at rank `int(n*p)`, the writer at the nearest rank; the ranks differ exactly when `n*p` is
  a whole number (`LearningRollup.RanksAgreeIff`), as for the median of ten samples (`LearningRollup.MedianOfTen`). On
  distinct samples the purge derives the writer's estimates exactly for odd counts below 20
  (`LearningRollup.EstimatesAgreeIff`).
- The comment on the writer's percentile says that `int(n*pct)` would pick the wrong one of five samples at 70 %. The
  writer picks the same one (`LearningPercentiles.FourthOfFive`); in general it reads the lower quantile, the purge the
  upper one (`LearningPercentiles.WriterReadsLowerQuantiles`, `LearningPercentiles.PurgeReadsUpperQuantiles`).
- Once a bucket's window has overflowed, its count stays ahead of the window by the number of overflows, whatever is
  purged (`LearningRollup.RunCountsOverflows`). From then on a purge still makes mean and m2 those of the window, but
  the next roll moves them by the wrong count: re-processing a BUD gives the statistics of the window exactly if the
  count was the window's or the sample is the mean of the others (`LearningRollup.ReprocessingIsRightIff`), and a purge
  undoes a roll exactly if the window had room and the statistics were its own (`LearningRollup.PurgeUndoesRollIff`).
  `LearningRollup.OverflowedBucket` is a bucket where both fail.
- A second purge is harmless exactly when the BUD was listed at most once (`LearningRollup.PurgeIsIdempotentIffOnce`).
- Resetting the active scale leaves the zones as they are, so they are stale unless the dropped scale was the baseline
  (`ScaleCache.World.ResetActiveScale`, and `ScaleCache.World.ResetLeavesZonesStale` for a run that shows it).
- A match that lacks progress is drawn for that before its position is counted, so a third repetition on that very turn
  is not what it is drawn for (`BacklashMatchRuns.RepetitionIsReal`).
- The repetition key leaves out the reserve of captured overlings. It may: in every reachable match the position
  decides the reserve (`BacklashMatchRuns.KeyDecidesReserve`).
- The arc of up to eight trees is said to open towards +z (`shared/world/layoutScale.ts:99`). With the cosine for x and
  the sine for z it leaves out -x (`TreePlaces.ArcIsEvenlySpaced`).
- The village layout is called count-pure in its comments. Positions, sides, yaws and streets are; the member ids,
  names and tiers that a placement carries are of course the members' own (`VillageLayout.PositionsAreCountPure`).

## Model

| member | source | states |
|---|---|---|
| RaceLaps.RunInLimits | shared/race/RacePhysics.ts:152-243 | Under every run of ticks, taps and key changes velocity stays between 0 and the boost speed, stamina in [0, 1], the position never falls, and a finished racer never changes again |
| RaceLaps.CrossedIffMet | shared/race/RaceTrackFeatures.ts:94-145 | For a step shorter than the loop, the mod-loop segments contain a feature exactly when the step passes one of its places f + k·L, and then just one |
| RaceLaps.SeenAsMetIffShort | shared/race/RaceTrackFeatures.ts:105-120 | The loop-space test counts a step's meetings with a feature right if and only if the step is shorter than the loop, which is the assumption the comment makes |
| RaceLaps.WholeLoopStepIsMissed | shared/race/RaceTrackFeatures.ts:109-120 | The failing case made concrete: a step of exactly one loop meets every feature once and is seen by no segment |
| RaceLaps.FiresOncePerLap | shared/race/RaceTrackFeatures.ts:24-31 | Over every run of an unfinished racer, a pad or hurdle at f fires exactly as many times as there are k with start < f + k·L <= end: once per lap, none missed or doubled at the start line |
| RaceLaps.FiringShows | shared/race/RaceTrackFeatures.ts:109-132 | A tick opens a boost window of 800 ms exactly if a pad fires and the racer stays up, and knocks the racer down for 1500 ms exactly if a hurdle fires outside a jump; nothing else moves either window |
| RaceLaps.FallsAreFirings | shared/race/RaceTrackFeatures.ts:127-131 | On every run there are at most as many falls as firings of the two hurdles |
| RaceLaps.HeldRunKeepsPace | shared/race/RacePhysics.ts:152-243 | A racer who holds the move key is, after every tick, at most 0.75 m and 5.25 m per fall behind a steady walk, counting what is still owed for lying down and speeding up |
| RaceLaps.UnfinishedIsEarly | shared/race/RaceConstants.ts:253-259 | On a race of any number of laps, a racer holding the key who is still under way has been going for less than (110.5·laps + 0.75) / 3 seconds |
| RaceLaps.FinishTimeIsEarly | shared/race/RaceConstants.ts:253-259 | And whoever has finished did so within that time and one tick |
| RaceLaps.HeldKeyFinishesInTime | shared/race/RaceConstants.ts:253-259 | On both distances a host may choose, under every schedule of ticks of at most 50 ms, every pattern of taps and any number of falls, a racer holding the key is finished before 74 s, well inside the 120 s timeout |
| RaceWindows.RunInOrder | shared/race/RacePhysics.ts:137-145 | On every run with a clock that never goes back, no sprint, boost, jump or knockdown window reaches further than its length past the clock, and a racer on the ground is at rest with no sprint or boost left |
| RaceWindows.TapExtends | shared/race/RacePhysics.ts:129-145 | In every reachable state a sprint tap never shortens the window, never passes the cap, opens it by a full tap when allowed, and changes nothing when the racer is finished, exhausted or down |
| RaceWindows.FallGrounds | shared/race/RaceTrackFeatures.ts:147-159 | A fall puts the racer on the ground for 1500 ms with no sprint and no boost, even when a pad was crossed on the same tick |
| RaceWindows.GroundedRunIsFrozen | shared/race/RaceTrackFeatures.ts:36-39 | From a fall until the knockdown ends, under every interleaving of ticks, taps and key changes, nothing but the key and the stamina changes: no motion, sprint, boost, jump, feature or further fall |
| RaceWindows.AirborneDutyCycle | shared/race/RaceConstants.ts:225-229 | However the jump key is spammed, the clock time during which the racer is airborne is at most 40 % of the clock beyond the first jump |
| RaceWindows.SprintIsPaidFor | shared/race/RacePhysics.ts:188-204 | On every run the stamina left is bounded on both sides by the start, plus 0.15 a second walked and 0.3 a second rested, minus 0.4 a second sprinted |
| RaceWindows.SprintShare | shared/race/RaceConstants.ts:147-182 | Stamina forces pacing: with the key held, at most 3/11 of the time beyond the first bar is spent sprinting |
| RaceSpeed.OneGait | shared/race/RacePhysics.ts:239-243 | Every tick has exactly one gait, told from the key, the windows and the stamina: down beats boost beats a sprint that lasts the tick beats walking, and without the key the racer is still |
| RaceSpeed.TickSpeed | shared/race/RacePhysics.ts:211-243 | A tick that brings nobody down takes the velocity towards 9 under a boost, 7 under a sprint that lasts, 3 on foot and 0 on the ground or with the key up: by exactly 12·dt, or 10·dt with the key up, and onto it once that near; the position moves on by the new velocity times dt |
| RaceSpeed.GaitCloses | shared/race/RacePhysics.ts:211-243 | Over every run in one gait the gap to its speed closes at its rate for as long as the ticks take, to nothing |
| RaceSpeed.GaitsReachTheirSpeed | shared/race/RacePhysics.ts:211-243 | From any reachable speed 0.75 s of ticks under a boost end at 9 m/s, under a lasting sprint at 7, on foot at 3; letting the key go ends at rest within 0.9 s |
| RaceControls.MovesWhileKeyIsDown | shared/race/RacePhysics.ts:123-127 | On every run a racer under way is moving exactly if the last thing done with the key was to press it |
| RaceControls.TapsAddUp | shared/race/RacePhysics.ts:129-145 | In every reachable state n sprint taps at one moment add n times 250 ms to what is open, up to 600 ms from now, or nothing when finished, exhausted or down |
| RaceControls.LastStartIsKept | shared/race/RaceTrackFeatures.ts:69-82 | On every run the time kept is that of the last tap that put the racer in the air |
| RaceControls.JumpIsHonouredIff | shared/race/RaceTrackFeatures.ts:69-82 | On every run a jump tap is honoured if and only if the racer is under way, not down, and has not jumped within the last second; then the racer is airborne for exactly 400 ms, otherwise nothing changes |
| RaceControls.FinishIsArrival | shared/race/RacePhysics.ts:174-178 | On every run a racer is finished if and only if the track is covered, and the time booked is that of the first tick after which it was |
| RacePhysics.Racer.constructor | shared/race/RacePhysics.ts:104-121 | A new racer is in the start state, with the jump cooldown backdated |
| RacePhysics.Racer.SetMoving | shared/race/RacePhysics.ts:123-127 | The key changes for racers under way only |
| RacePhysics.Racer.TriggerSprintTap | shared/race/RacePhysics.ts:137-145 | The tap in place is the tap of the model that TapExtends and TapsAddUp are about |
| RacePhysics.Racer.TriggerJump | shared/race/RaceTrackFeatures.ts:76-82 | The jump in place is the jump of the model that JumpIsHonouredIff and AirborneDutyCycle are about |
| RacePhysics.Racer.StepStamina | shared/race/RacePhysics.ts:193-204 | Drain, clamp and regeneration in place agree with the model that SprintIsPaidFor is about |
| RacePhysics.Racer.StepVelocity | shared/race/RacePhysics.ts:211-243 | The velocity step in place is the one of the model, which RaceSpeed.TickSpeed pins gait by gait |
| RacePhysics.Racer.ApplyHurdleKnockdown | shared/race/RaceTrackFeatures.ts:154-159 | Exactly the velocity and the three windows change |
| RacePhysics.Racer.StepTrackFeatures | shared/race/RaceTrackFeatures.ts:109-132 | The two loops, which may fire one effect several times, have the effect of a single firing of either kind |
| RacePhysics.CrossedAnySegment | shared/race/RaceTrackFeatures.ts:134-145 | The early-exit loop finds a segment exactly when there is one |
| RacePhysics.Tick | shared/race/RacePhysics.ts:152-186 | Every racer of the field makes exactly the model's tick, which TickSpeed, FiringShows and FinishIsArrival pin, independently of the others; a tick of no time changes nothing |
| RaceRanking.CheckFinishRanks | shared/race/RacePhysics.ts:245-274 | Every racer is placed once, with places 1 to n, in the documented order, and the placings do not depend on the order the racers come in |
| RaceRanking.AnySortAgrees | shared/race/RacePhysics.ts:252-273 | Whatever algorithm sorts by the comparator, the placings are the same |
| RaceRanking.CompareIsRank | shared/race/RacePhysics.ts:253-264 | The comparator is negative exactly for the documented order, and zero exactly for entrants that show the same |
| RaceRanking.CompareIsTransitive | shared/race/RacePhysics.ts:253-264 | The comparator is a consistent order, given that the string comparison is |
| BacklashRules.LegalMovesForPiece | shared/minigames/backlash.ts:103-168 | The push loop over the eight directions produces the move list that GeneratorIsTheRules is about, malformed requests included |
| BacklashRules.GeneratorIsTheRules | shared/minigames/backlash.ts:103-168 | A move is generated if and only if the rules of the game allow it: a step to an empty neighbour, a diagonal replacement by an underling, or an overling's jump over a neighbour to an empty square that is not excluded |
| BacklashRules.LegalMovesForColor | shared/minigames/backlash.ts:170-179 | The loop over the board produces the list that LegalMovesOfColor is about |
| BacklashRules.LegalMovesOfColor | shared/minigames/backlash.ts:170-179 | A side's moves are exactly the legal moves of its own pieces |
| BacklashRules.DestinationDecidesMove | shared/minigames/backlash.ts:186-187 | At most one legal move leads from one square to another, so looking a move up by its destination is unambiguous |
| BacklashRules.AtMostEightMoves | shared/minigames/backlash.ts:103-168 | A square has at most eight moves, with pairwise distinct destinations |
| BacklashRules.ApplyPlaysTheLegalMove | shared/minigames/backlash.ts:181-188 | A request is accepted if and only if some legal move goes there, and then that move is the one played |
| BacklashRules.ApplyBacklashMove | shared/minigames/backlash.ts:181-212 | The copy-and-write applier gives the board, captive and promotion flag of the legal move, or nothing; OfferIffOnEnemyBackRow says when the flag is raised, ChainChangesOnly and PlayedCounts what is on the board |
| BacklashRules.PromoteUnderling | shared/minigames/backlash.ts:214-226 | Promotion succeeds exactly where PromotableIffOnEnemyBackRow says, and changes only the kind of the piece |
| BacklashRules.OfferedPromotionSucceeds | shared/minigames/backlash.ts:203-226 | A move offers a promotion if and only if promoting on its destination will succeed |
| BacklashRules.QuietMovesReverse | shared/minigames/backlash.ts:103-212 | Every move that takes nothing is legal in reverse, and making it restores the exact board |
| BacklashKey.KeyIsThePosition | shared/minigames/backlash.ts:239-249 | Two keys are equal if and only if the turn and the color and kind on every square are |
| BacklashKey.SameLegalMoves | shared/minigames/backlash.ts:103-168 | Boards that differ in piece ids only have the same moves under every option |
| BacklashKey.SamePositionsPlayAlike | shared/minigames/backlash.ts:181-212 | Such boards accept the same requests, with the same effects, and lead to such boards again |
| BacklashKey.SamePositionsPromoteAlike | shared/minigames/backlash.ts:214-226 | And allow the same promotions, leading to such boards again |
| BacklashKey.MirrorCommutesWithLegal | shared/minigames/backlash.ts:59-168 | Reflecting the rows and swapping the colors maps legal moves to legal moves, both ways |
| BacklashKey.MirrorCommutesWithApply | shared/minigames/backlash.ts:181-212 | The reflection commutes with applying any request, accepted or not |
| BacklashKey.MirrorCommutesWithPromotion | shared/minigames/backlash.ts:214-226 | The reflection commutes with promotion |
| BacklashRuns.CreateBacklashBoard | shared/minigames/backlash.ts:88-101 | The filling loop produces the starting board, every square of it |
| BacklashRuns.StartingBoardIsSymmetric | shared/minigames/backlash.ts:88-101 | The reflection maps the starting board to itself up to ids |
| BacklashRuns.StartingCounts | shared/minigames/backlash.ts:88-101 | Each side starts with eight overlings and eight underlings |
| BacklashRuns.PromotableIffOnEnemyBackRow | shared/minigames/backlash.ts:219-222 | A piece can be promoted if and only if it is an underling on a square where an overling of the other side starts |
| BacklashRuns.OfferIffOnEnemyBackRow | shared/minigames/backlash.ts:203-211 | A move offers a promotion if and only if an underling arrives on a square where an overling of the other side starts |
| BacklashRuns.PlayedCounts | shared/minigames/backlash.ts:192-201 | A capture removes exactly one piece, an opponent's; every other count is kept, for every color and kind |
| BacklashRuns.RunKeepsPieces | shared/minigames/backlash.ts:88-226 | On every run from the start, ids on the board stay distinct and are starting ids, pieces keep their color and only ever grow from underling to overling, and no captive comes back or is taken twice |
| BacklashRuns.RunConserves | shared/minigames/backlash.ts:181-237 | On every run, board and captives add up to 32, and captures and promotions are paid for out of 2·underlings + overlings |
| BacklashRuns.ProgressIsBounded | shared/minigames/backlash.ts:181-226 | On every run there are at most 47 captures and promotions |
| BacklashRuns.SamePositionsStaySame | shared/minigames/backlash.ts:181-249 | Boards with equal keys stay so under every sequence of requests, with equally many captures and promotions |
| BacklashRuns.MirrorCommutesWithRuns | shared/minigames/backlash.ts:59-226 | Black can play any run of white's, reflected |
| BacklashRuns.ChainsAreShort | shared/minigames/backlash.ts:114-137 | A chain of jumps whose landings are excluded has at most 16 jumps, and at most 15 when its first square is excluded too |
| BacklashRuns.ChainChangesOnly | shared/minigames/backlash.ts:114-201 | The exact board after a whole chain: the piece at its last landing, the enemies on the squares it passed over gone, and every other square as it was |
| BacklashCodec.DecodeOfEncode | shared/minigames/backlash.ts:251-267 | Decoding an encoded piece gives it back if and only if its id is non-empty and has no bar, and gives nothing otherwise |
| BacklashCodec.EncodeOfDecode | shared/minigames/backlash.ts:255-267 | Any string that decodes to a piece is that piece's encoding, to the letter |
| BacklashCodec.WireFormat | shared/minigames/backlash.ts:251-253 | The four forms of a piece on the wire, for every id: id, white or black, overling or underling, with bars between |
| BacklashEngine.Engine.constructor | multiplayer/src/rooms/backlash/BacklashEngine.ts:40-57 | A new engine is a fresh match with its first position recorded |
| BacklashEngine.Engine.Reset | multiplayer/src/rooms/backlash/BacklashEngine.ts:59-74 | After a reset nothing of the old match is left: the state is that of a new engine |
| BacklashEngine.Engine.Move | multiplayer/src/rooms/backlash/BacklashEngine.ts:76-145 | The new state and the reply are those of the match model, which AcceptedIffOpen, MoveOutcome and ReplyTellsTheMove describe by the rules of the game |
| BacklashEngine.Engine.CompleteTurn | multiplayer/src/rooms/backlash/BacklashEngine.ts:200-224 | The hand-over in place is the model's, with its three ways to end the match in order |
| BacklashEngine.Engine.EndJump | multiplayer/src/rooms/backlash/BacklashEngine.ts:147-151 | Accepted exactly from the player to move in a chain; the new state is the one EndJumpOutcome describes |
| BacklashEngine.Engine.ResolvePromotion | multiplayer/src/rooms/backlash/BacklashEngine.ts:153-167 | Accepted exactly when the offer stands and, if taken, the reserve has an overling; a refusal changes nothing, and PromotionOutcome describes the rest |
| BacklashEngine.Engine.Restore | multiplayer/src/rooms/backlash/BacklashEngine.ts:157-164 | An overling leaves the reserve exactly when there is one and the pending underling can be promoted; otherwise nothing changes |
| BacklashEngine.Engine.GiveUp | multiplayer/src/rooms/backlash/BacklashEngine.ts:169-172 | The first result stands; otherwise the opponent wins, as ForfeitOutcome says |
| BacklashEngine.Engine.PlayAutomaticMove | multiplayer/src/rooms/backlash/BacklashEngine.ts:174-183 | The move played for an absent player and the reply are the model's, which AutomaticOutcome and StuckLoses describe |
| BacklashEngine.Engine.LegalMovesNow | multiplayer/src/rooms/backlash/BacklashEngine.ts:189-198 | The moves on offer in each phase |
| BacklashEngine.Engine.RecordPosition | multiplayer/src/rooms/backlash/BacklashEngine.ts:226-231 | One more occurrence of the present key, no other entry touched, and the new count returned |
| BacklashMatchRuns.RunIsSound | multiplayer/src/rooms/backlash/BacklashEngine.ts:40-243 | On every run of a match the overlings on the board and in reserve are eight a side, locks and pending promotions point at pieces of the player to move, whoever is to move can, and every result has the outcome and the winner its reason calls for, with the position that justifies it |
| BacklashMatchRuns.AutomaticMoveIsAccepted | multiplayer/src/rooms/backlash/BacklashEngine.ts:174-198 | In every such state the automatic move exists, is accepted, and captures if any move does |
| BacklashMatchRuns.MatchesEnd | multiplayer/src/rooms/backlash/BacklashEngine.ts:200-219 | Every match is over after at most 4800 turns, and none sees more than 72015 moves |
| BacklashMatchRuns.RepetitionIsReal | multiplayer/src/rooms/backlash/BacklashEngine.ts:221-231 | A match is drawn by repetition when the present position, ids aside, stands at the start of a turn for the third time; otherwise no position has, unless the match was drawn for want of progress on that very turn, which is looked at first |
| BacklashMatchRuns.KeyDecidesReserve | multiplayer/src/rooms/backlash/BacklashEngine.ts:106-111 | Matches that stand at the same position have the same reserves, though the key does not mention them |
| BacklashMatchRuns.EqualKeysGoOnAlike | multiplayer/src/rooms/backlash/BacklashEngine.ts:76-231 | Matches at equal keys with a fresh turn go on alike under every continuation, until one of them is over |
| BacklashTurns.AcceptedIffOpen | multiplayer/src/rooms/backlash/BacklashEngine.ts:76-96 | In every state a request is accepted, and counted, if and only if it is the player's turn and a legal move of the player leads there, in a chain a jump of the jumping piece to a square it has not been on; otherwise nothing changes |
| BacklashTurns.MoveOutcome | multiplayer/src/rooms/backlash/BacklashEngine.ts:95-134 | In every reachable state an accepted move is played on the board and its captive booked; the match is won if and only if no enemy is left; otherwise the chain goes on, with the piece locked and the turn kept, if and only if the move was a jump and a legal jump leads on from there; otherwise a promotion is offered if and only if an underling reached its far row with an overling in reserve; otherwise the turn passes |
| BacklashTurns.ReplyTellsTheMove | multiplayer/src/rooms/backlash/BacklashEngine.ts:77-93 | The reply is an acceptance exactly for accepted requests, with the new phase, the captive and the square it stood on, and otherwise gives the reason |
| BacklashTurns.EndJumpOutcome | multiplayer/src/rooms/backlash/BacklashEngine.ts:147-151 | The player in a chain may end it, which passes the turn on the same board; for anyone else nothing changes |
| BacklashTurns.PromotionOutcome | multiplayer/src/rooms/backlash/BacklashEngine.ts:153-167 | An offer taken turns the underling into an overling of the same id and color and takes one from the reserve; taken or declined, the turn passes; for anyone else nothing changes |
| BacklashTurns.ForfeitOutcome | multiplayer/src/rooms/backlash/BacklashEngine.ts:169-172 | Giving up loses a match under way to the opponent for the reason given, and changes nothing in one that is over |
| BacklashTurns.AutomaticOutcome | multiplayer/src/rooms/backlash/BacklashEngine.ts:174-183 | The move made for an absent player is the legal one preferred to all others: captures first, then the lower square moved from, then the lower square moved to |
| BacklashTurns.OpeningMove | multiplayer/src/rooms/backlash/BacklashEngine.ts:40-57 | A new match is one the laws above hold for, and white has a move in it, which is what an absent player would make |
| BacklashTurns.StuckLoses | multiplayer/src/rooms/backlash/BacklashEngine.ts:178-181 | An absent player without a legal move loses, in whatever state |
| BacklashTurns.NoProgressIsReal | multiplayer/src/rooms/backlash/BacklashEngine.ts:97-111 | On every run the tally behind the draw is the number of turns in a row that took nothing and restored nothing, and the turn under way counts as progress exactly once something has gone |
| LoopPath.BracketBrackets | shared/race/LoopPath.ts:179-189 | The index found brackets the arc, and is the largest with arcs[i] <= arc exactly when the arc is below the last entry |
| LoopPath.LastIndexIsNotFound | shared/race/LoopPath.ts:179-189 | The input on which the comment fails: the arc of the last entry |
| LoopPath.LowerIndex | shared/race/LoopPath.ts:180-189 | The binary search finds that index on a rising table, the first index for an arc before the table, and on any table an index whose arc is not beyond the argument |
| LoopPath.OneLapMore | shared/race/LoopPath.ts:191-222 | One lap further on, the place is the same and the heading is exactly 2π more, at every distance and lateral offset |
| LoopPath.PoseHeadingRises | shared/race/LoopPath.ts:39-41 | On a table whose headings never fall, the heading never falls over any number of laps |
| LoopPath.StartPose | shared/race/LoopPath.ts:35-38 | On a table whose first chord has a length, the start line is the first sample, shifted sideways only, with heading 0 |
| LoopPath.UnitSpeed | shared/race/LoopPath.ts:199-213 | Between two distances on one chord, on any lap, the centreline pose moves exactly that far in the direction of the chord's heading |
| LoopPath.FirstLap | shared/race/LoopPath.ts:204-222 | On the first lap's centreline the pose is the interpolated sample |
| LoopPath.PoseAtSample | shared/race/LoopPath.ts:204-213 | At the arc of a sample the centreline pose is that sample with its heading |
| LoopPath.HeadingTurnsEvenly | shared/race/LoopPath.ts:213-220 | Along a chord the heading turns in proportion to the way, from one sample's to the next one's |
| LoopPath.LateralIsSideways | shared/race/LoopPath.ts:215-221 | At every distance a lateral offset leads perpendicularly off the heading of the pose, by exactly the offset, a quarter turn on from +x towards +z for a positive one, and keeps the heading |
| LoopPath.LaneMoves | shared/race/LoopPath.ts:193-222 | Between two distances on one chord a pose in a lane moves as on the centreline, and besides by the offset times what the normal turned |
| LoopPath.PoseOn | shared/race/LoopPath.ts:199-222 | The lookup with search and interpolation is the pose the laws above are about, PoseAtSample, LateralIsSideways and OneLapMore among them |
| LoopTables.CurveCloses | shared/race/LoopPath.ts:98-118 | The last sample is the first one again |
| LoopTables.LengthIsPositive | shared/race/LoopPath.ts:112-122 | The sampled length is never zero, so the scale is defined |
| LoopTables.FirstStep | shared/race/LoopPath.ts:112-118 | The second sample is not the first one, so the first chord has a length |
| LoopTables.HypotScales | shared/race/LoopPath.ts:28-30 | Scaling the points scales every chord, so the arc table scales linearly |
| LoopTables.Unwrap | shared/race/LoopPath.ts:135-141 | The two while loops end, keep the direction and put the heading within half a turn of the one before |
| LoopTables.Directions | shared/race/LoopPath.ts:129-142 | Each heading is its chord's direction, neighbours are within half a turn, and the seam is one full turn after the start |
| LoopTables.Rescale | shared/race/LoopPath.ts:120-127 | Points and arcs are scaled in place, all by the same factor |
| LoopTables.Anchor | shared/race/LoopPath.ts:144-160 | All samples are turned back by the start heading about the start sample, and the headings with them |
| LoopTables.MeasureBounds | shared/race/LoopPath.ts:154-165 | The smallest box around the samples |
| LoopTables.BuildTable | shared/race/LoopPath.ts:107-168 | For every circumference the table is a loop closed at the origin, with arcs up to the circumference, headings from 0 to 2π in steps of at most half a turn and its smallest bounds; its samples are the curve with the two documented harmonics at equal polar angles, moved, turned and enlarged; for a positive circumference the arcs rise, at once from the start, and the headings trace the loop chord by chord |
| LoopTables.StartLine | shared/race/LoopPath.ts:35-38 | On every table built for a positive circumference, the pose at distance 0 is the origin shifted sideways by the lateral offset, with heading 0 |
| LoopTables.LoopPaths.GetTable | shared/race/LoopPath.ts:170-177 | A circumference's table is built once, from 2048 chords, and afterwards stays what it was; all cached tables are finished ones |
| LoopTables.LoopPaths.LoopPose | shared/race/LoopPath.ts:199-222 | The pose is that of the circumference's own table, which the laws of LoopPath are about, and at distance 0 the start line |
| LoopTables.LoopPaths.LoopBounds | shared/race/LoopPath.ts:224-231 | The box is the smallest around the circumference's samples |
| LearningRollup.PurgeKeepsTheOthers | backend/scripts/reprocess_bud_learning.py:79-91 | With parallel lists and the BUD listed at most once, exactly the other BUDs' samples survive, in order |
| LearningRollup.PurgeIsIdempotentIffOnce | backend/scripts/reprocess_bud_learning.py:80-91 | A second purge changes nothing if and only if the BUD was listed at most once |
| LearningRollup.EstimatesAreOrdered | backend/scripts/reprocess_bud_learning.py:100-107 | optimistic <= p50 <= p70 <= p85 <= pessimistic, all of them samples, the outer two the extremes of the window |
| LearningRollup.RanksAgreeIff | backend/app/services/velocity_aggregate_math.py:48-59 | The writer's nearest rank and the purge's int(n·p) are the same rank if and only if n·p is not a whole number |
| LearningRollup.MedianOfTen | backend/app/services/velocity_aggregate_math.py:51-53 | For ten samples the writer's median is the fifth and the purge's the sixth |
| LearningRollup.PertRanksAgreeIff | backend/app/services/velocity_aggregate_math.py:95-100 | The writer's 5 % rank is the first up to 20 samples, its 95 % rank the last below 20 |
| LearningRollup.EstimatesAgreeIff | backend/scripts/reprocess_bud_learning.py:100-107 | For odd counts below 20 the purge derives exactly the estimates the writer would have; on distinct samples only for those |
| LearningPercentiles.PurgeReadsUpperQuantiles | backend/scripts/reprocess_bud_learning.py:100-118 | A purge derives the percentiles from the surviving window as the sample with at most that share of the samples below and more than that at or below, for 50, 70 and 85 %, the outer two as its extremes; an empty window has none |
| LearningPercentiles.WriterReadsLowerQuantiles | backend/app/services/velocity_aggregate_math.py:72-98 | A roll is refused if and only if the BUD is listed; otherwise each percentile is the sample with less than that share below and at least that at or below, for 50, 70 and 85 %, and from ten samples on for 5 and 95 %, before which the outer two are the extremes |
| LearningPercentiles.FourthOfFive | backend/app/services/velocity_aggregate_math.py:51-54 | The case the comment gives: writer and purge both read the fourth of five samples at 70 % |
| LearningPercentiles.PurgeTakesOne | backend/scripts/reprocess_bud_learning.py:84-91 | For every bucket, parallel lists or not, a purge takes out the first entry of the BUD and the sample at its place if there is one, and the count falls by one unless it is 0 |
| LearningPercentiles.FiftyAreKept | backend/app/services/velocity_aggregate_math.py:76-80 | A roll puts the sample last, and beyond fifty pushes out the oldest with its BUD |
| LearningRollup.WelfordIsTwoPass | backend/scripts/reprocess_bud_learning.py:92-110 | Welford's recurrence folded over a window gives the two-pass count, mean and m2 |
| LearningRollup.PurgeStatistics | backend/scripts/reprocess_bud_learning.py:91-119 | After a purge mean and m2 are those of Welford's recurrence over the surviving window, and the count is one less |
| LearningRollup.RollingKeepsConsistentIff | backend/app/services/velocity_aggregate_math.py:76-88 | From statistics that are the window's own, rolling a sample in keeps count, mean and m2 true to the window if and only if the count was and the window had room |
| LearningRollup.RolledStatisticsIff | backend/app/services/velocity_aggregate_math.py:85-88 | Into a window with room and with its own statistics, a roll gives the extended window's mean and m2 if and only if the count was the window's or the sample is the mean |
| LearningRollup.PurgeUndoesRollIff | backend/scripts/reprocess_bud_learning.py:51-53 | For every bucket with parallel lists, purging the BUD just rolled in restores ids, samples, count, mean and m2 if and only if the window had room and mean and m2 were its own |
| LearningRollup.ReprocessingIsRightIff | backend/scripts/reprocess_bud_learning.py:92-99 | Purging a BUD and rolling its sample in again gives the mean and m2 of the window, so that the sample counts once, if and only if the count was that of the window or the sample is the mean of the others |
| LearningRollup.RunCountsOverflows | backend/app/services/velocity_aggregate_math.py:76-88 | Over every run of rolls and purges ids stay distinct and parallel to the samples, the count is ahead of the window by the number of overflows, and without one count, mean and m2 are exact |
| LearningRollup.OverflowedBucket | backend/scripts/reprocess_bud_learning.py:91-110 | A bucket past an overflow in which a roll gives the mean 2 for the samples 0 and 6, and purging the next roll changes it to 3 |
| LearningRollup.VelocityAggregate.RemoveSample | backend/scripts/reprocess_bud_learning.py:81-119 | The in-place purge of one bucket is the purge the laws above are about |
| LearningRollup.PurgeExistingState | backend/scripts/reprocess_bud_learning.py:63-119 | The metrics are cleared, and every bucket is purged, independently of the others |
| VillageLayout.HousesKeepApart | shared/world/VillageLayout.ts:146-224 | For every member count, two houses are at least 5.5 apart along one row or at least 6 apart across |
| VillageLayout.FootprintsAreDisjoint | shared/world/HouseTiers.ts:50-76 | So the largest house footprints never overlap |
| VillageLayout.HousesStandOnTheirStreet | shared/world/VillageLayout.ts:193-224 | Every house stands within its street, at most four on a side |
| VillageLayout.SlotCounts | shared/world/VillageLayout.ts:201-214 | The slot counters give a house the number of houses before it on its side |
| VillageLayout.SideTotals | shared/world/VillageLayout.ts:150-174 | The per-street counters end at the houses of each side, and the north side is never the shorter |
| VillageLayout.AssignSides | shared/world/VillageLayout.ts:146-186 | Every member is assigned its street, side and yaw, and the counters count them |
| VillageLayout.PlaceHouses | shared/world/VillageLayout.ts:188-224 | Every house is placed where the separation laws and the laws of VillageStreets say, and every street is described |
| VillageLayout.Extents | shared/world/VillageLayout.ts:226-236 | The smallest box around every house's extent |
| VillageLayout.FenceAround | shared/world/VillageLayout.ts:237-244 | The fence is a square, centred on the extents, that keeps the padding around every house and exactly the padding on one axis |
| VillageLayout.FenceRadius | shared/world/VillageLayout.ts:245-269 | The radius is the smallest from 8 up whose disc covers the fence |
| VillageLayout.OuterReach | shared/world/VillageLayout.ts:247-264 | The reach is the distance of the farthest corner after the yaw |
| VillageLayout.CornersReachFarthest | shared/world/VillageLayout.ts:111-117 | No point inside the fence, however the village is turned, is farther from the world origin than the farthest corner |
| VillageLayout.ComputeVillageLayout | shared/world/VillageLayout.ts:127-275 | The whole layout is settled, fenced and measured as the laws above and those of VillageStreets describe, and the empty village is the fixed one |
| VillageLayout.HousesAreEnclosed | shared/world/VillageLayout.ts:226-264 | Every house with its extent and padding is inside the fence and within the outer reach |
| VillageLayout.PositionsAreCountPure | shared/world/VillageLayout.ts:40-42 | Two villages of the same size have the same streets, positions, sides and yaws, whoever lives there and wherever the zone is |
| VillageStreets.HousesAreTheMembers | shared/world/VillageLayout.ts:176-185 | The i-th house is the i-th member's, of the member's level or else of the first |
| VillageStreets.StreetsFillInOrder | shared/world/VillageLayout.ts:26-42 | Eight houses to a street, in order, and just enough streets |
| VillageStreets.DoorsFaceTheStreet | shared/world/VillageLayout.ts:205-213 | Every house stands six from the middle of its street, north of it with yaw 0 or south of it with yaw 180, so that its door faces the street |
| VillageStreets.StreetsAreCentred | shared/world/VillageLayout.ts:189-194 | Streets are 18 apart and the first mirrors the last, the second the last but one, and so on |
| VillageStreets.StreetsCountTheirHouses | shared/world/VillageLayout.ts:216-223 | A street's counts are the houses that stand on either side of it |
| VillageStreets.SidesAlternate | shared/world/VillageLayout.ts:159-174 | A street begins in the north, and sides alternate if and only if it has more than four houses |
| VillageStreets.RowsAreRegular | shared/world/VillageLayout.ts:203-214 | The next house of a row stands 5.5 further to the right |
| VillageStreets.RowsBeginAtTheRoad | shared/world/VillageLayout.ts:198-220 | A row begins two from the left end of its street |
| VillageStreets.NorthRowsEndAtTheRoad | shared/world/VillageLayout.ts:198-220 | The north row, which is the longer one, ends two from the right end |
| VillageStreets.FenceIsTight | shared/world/VillageLayout.ts:226-244 | The fence is a square that keeps seven from every house, and on one axis two houses are exactly seven from its two sides |
| VillageStreets.YawAddsToBearings | shared/world/geom.ts:30-43 | Turning the village keeps distances from the zone's centre and adds the yaw to every bearing from +z towards +x |
| TreePositions.RingsSuffice | shared/world/treePositions.ts:155-161 | The rings always have room for every tree, for every count |
| TreePositions.InnerRingsAreFull | shared/world/treePositions.ts:157-169 | A ring is used only when every ring inside it is full |
| TreePositions.RingsHold | shared/world/treePositions.ts:157-169 | The first rings hold their capacity, or all trees if there are fewer |
| TreePositions.TreeOnRing | shared/world/treePositions.ts:157-169 | The trees of a ring follow those of the rings inside it |
| TreePositions.GetTreePositions | shared/world/treePositions.ts:139-174 | Exactly count trees are placed, on the arc up to eight and on rings beyond; none for a count of zero or less |
| TreePositions.OrchardIsThere | shared/world/treePositions.ts:39-44 | At every scale there is an orchard zone: at the origin, with the radius of the scale |
| TreePositions.RingRadii | shared/world/treePositions.ts:158-160 | Rings grow outwards and stay inside the orchard |
| TreePositions.TreesStayInOrchard | shared/world/treePositions.ts:139-174 | Every tree stands inside the orchard |
| TreePositions.SlotsAreDistinct | shared/world/treePositions.ts:78-83 | Two agents at a tree have the same ring and signed slot if and only if they have the same stack index |
| TreePositions.EverySlotIsUsed | shared/world/treePositions.ts:78-83 | Every ring and every slot within two of the middle belongs to some stack index |
| TreePositions.AgentDistance | shared/world/treePositions.ts:63-95 | The call fails if and only if the tree is at the orchard's centre; otherwise the agent stands exactly its ring's distance from the tree |
| TreePlaces.ArcIsEvenlySpaced | shared/world/treePositions.ts:145-153 | Up to eight trees stand at 0.65 of the orchard's radius on three quarters of a circle, from -135 to 135 degrees off +x in equal steps |
| TreePlaces.RingsAreEvenlySpaced | shared/world/treePositions.ts:157-170 | On a ring, at its radius, the first tree is half a radian further round for every ring, and each next one an equal part of a full turn on |
| TreePlaces.TreesAreDistinct | shared/world/treePositions.ts:139-174 | No two trees stand in one place, for every count |
| TreePlaces.SlotOrder | shared/world/treePositions.ts:78-83 | The places at a tree are taken in the order 0, 1, -1, 2, -2 and then again on the next ring |
| TreePlaces.AgentPlace | shared/world/treePositions.ts:69-95 | An agent stands 1.8 from its tree, and 1.2 more for every full ring, off the direction to the orchard's centre by its signed slot times the step |
| Zones.ScaleCurve | shared/world/orchardCurve.ts:54-80 | The orchard radius never falls with more repositories, and stays between the baseline, which it takes at the baseline count, and the cap |
| Zones.ScaleSteps | shared/world/orchardCurve.ts:59-80 | The baseline radius 18 up to eight repositories, two and a half more for each further one, 70 from 29 on, with the documented examples |
| Zones.BaselineIsDeclared | shared/world/zones.ts:111-142 | At the baseline every outer zone is where it was declared |
| Zones.GapIsKept | shared/world/zones.ts:115-118 | At every scale from the baseline up, a zone's gap to the orchard's rim is the declared one |
| Zones.ZonesStayOnTheirRay | shared/world/zones.ts:128-138 | At every scale an outer zone is on the ray through its declared place, as much farther out as the orchard's rim |
| Zones.ZonesKeepTheirKind | shared/world/zones.ts:119-142 | At every scale a zone keeps its name, tier and yaw, which only the housing zone has, and its radius unless it is the hub, which is at the origin with the radius of the scale |
| Zones.ZonesTellTheScale | shared/world/zones.ts:144-147 | Zones built from two scales agree if and only if the orchard radii do |
| Zones.DeclaredZonesAreFound | shared/world/zones.ts:184-187 | Looking a zone up succeeds exactly for the declared names, at every scale |
| ScaleCache.World.constructor | shared/world/zones.ts:161-174 | After loading, the zones are the baseline's and the zone listener is subscribed |
| ScaleCache.World.OnScaleChange | shared/world/layoutScaleCache.ts:95-100 | Adding a listener twice has no effect; a new one comes last and is reached by a cascade under way |
| ScaleCache.World.StopListening | shared/world/layoutScaleCache.ts:97-99 | Exactly the given listener is dropped, and a cascade under way goes on with the next one |
| ScaleCache.World.SetActiveScale | shared/world/layoutScaleCache.ts:137-155 | A re-entrant call throws and changes nothing; an outermost one installs its key only, clears the flag, keeps the zone listener and leaves the zones in step, whatever the other listeners do; for the default key everybody is told, for another nobody |
| ScaleCache.World.EmitScaleChange | shared/world/layoutScaleCache.ts:108-119 | The cascade ends, with the zones rebuilt, even when listeners throw, try to set, or subscribe and unsubscribe others on the way; everybody subscribed at its end was told, and if nobody subscribes or unsubscribes, all were told once, in order |
| ScaleCache.World.NotifyNext | shared/world/layoutScaleCache.ts:108-119 | One step of the cascade keeps that true of the listeners passed so far |
| ScaleCache.World.Notify | shared/world/layoutScaleCache.ts:108-119 | Only a subscribed listener is told; one other than the zone listener changes nothing but the subscriptions, by exactly its attempts up to the first that throws, cannot take the zone listener off, and throws if and only if one of its attempts does |
| ScaleCache.World.Perform | shared/world/layoutScaleCache.ts:95-155 | The same for each single thing a listener may attempt: it throws if and only if it sets, throws, or reads a key not installed |
| ScaleCache.World.GetActiveScale | shared/world/layoutScaleCache.ts:171-191 | Only the default key falls back to the baseline, only in production, and reading never changes what the default key stands for |
| ScaleCache.World.GetZones | shared/world/zones.ts:180-182 | Between calls the zones are those of the installed default scale, or of the baseline |
| ScaleCache.World.GetZone | shared/world/zones.ts:184-187 | A zone is found exactly if it is declared, and it is the one of the active scale |
| ScaleCache.World.ResetActiveScale | shared/world/layoutScaleCache.ts:202-208 | After a reset the zones are in step if and only if the default key was not dropped or stood for the baseline |
| ScaleCache.World.ResetLeavesZonesStale | shared/world/layoutScaleCache.ts:202-208 | A run that shows it: setting a scale off the baseline and resetting leaves the zones out of step |
| ScaleCache.World.RunCalls | shared/world/layoutScaleCache.ts:95-191 | On every run of subscribe, unsubscribe, set and get calls the zones are those of the last scale set for the default key, and the flag is clear after every call |

## Left out

- Floating-point rounding: all distances, times and stamina are exact reals, and so are the percentages and day counts.
- Concrete values of sine, cosine, arctangent and hypotenuse, and with them the convexity of the circuit's harmonics; that the headings never fall is a hypothesis of PoseHeadingRises.
- RacePhysics.Tick: the racers are distinct objects; the field of a race never lists one twice.
- RaceRanking.CheckFinishRanks: the sort is written as an insertion sort on values, since AnySortAgrees shows that the algorithm does not matter; the unused timeout argument is dropped, and the string comparison is only assumed to be a total order.
- BacklashRules.LegalMovesForPiece: board indexes are integers; the rejection of fractional ones is not modelled.
- BacklashMatchRuns.EqualKeysGoOnAlike: says nothing beyond the end of either match, since the two draw counters are not part of a position.
- LoopTables.BuildTable: the first loop is written as two, points first and lengths second, and the infinite starting bounds as a first-sample case.
- LoopTables.LoopPaths.LoopPose: circumferences of zero or below, for which the source divides by zero or searches a table that falls.
- VillageLayout.AssignSides: the per-street counters are sequences that are reassigned, not arrays written in place; the centre and yaw that the layout passes through from the zone are not repeated in its result.
- ScaleCache.World.Notify: what a listener attempts is a finite list that may subscribe only listeners with shorter lists; one that drops itself and subscribes itself anew each time would be notified for ever.
- ScaleCache.World.SetActiveScale: a scale is its orchard radius; the hub, perimeter and agent-slot fields ride along unchanged.
- TreePositions.GetTreePositions: the ratios of the tree formula are the constants of every computed scale, not read from the cache.
- openDirectionFromOrchard, getAgentFallbackSlot, requireZone, computeOuterPerimeterRadius, getHouseTierGeometry, track shapes and the other short formulas of `shared/`: easy members only.
- Console logging, the database session and queries around the purge, and the metrics pipeline that runs after it.
- Rooms, transport, turn clocks and reconnection around the Backlash engine and the race.
