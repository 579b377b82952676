# LD56 in Dafny

A model of the gameplay core of LD56, a small top-down game written in C#.

The player steers a creature with a tail through a level of circular walls. Along the way it:

- picks up food and carries it back to a goal, a nest whose inverse-kinematic arms reach for the held food and grow one arm per feed;
- avoids enemies, which chase a player they can see and bite it.

The model also covers:

- workers that walk to a spot and then wander;
- a frog with splash rings;
- the outline renderer of the walls;
- the closing credits;
- the level editor;
- the serializable vector and rectangle wrappers of the level files;
- the resource registry, which holds sprite sheets, sounds and generated textures.

Every `float` of the game is a `real`. Every integer is an unbounded `int` or `nat`: nothing in the core relies on wrap-around.

- **Platform maths.** Square root, sine and cosine have no definition in Dafny. The model receives them as a `MathLib` value (`geometry.dfy`). It assumes only what `SqrtSound` and `TrigSound` say about that value:
  - the square root is a non-negative root;
  - sin² + cos² = 1.

  Lengths are compared through their squares wherever the game only compares them.
- **Randomness.** Every random draw is a parameter of the operation that uses it: a worker's wander direction and wait time, a goal arm's wander target, the frog's leg-wiggle pace.
- **Per-frame updates** are methods of classes whose fields the game updates in place. Long updates are split into one method per phase, and each phase method names the fields it may change. The outcome of each phase is stated as a value derived from the old state.
- **The world's entity list** is a `seq` of tagged references (`Levels.EntityRef`). The game's cyclic references are replaced by return values:
  - `Player.TakeDamage` returns whether the player died, where the game calls `World.PlayerDied`;
  - `Goal.KillPlayer` returns whether a reload is requested.
- **Files.**
  - The editor's level files are a `map` from file name to level data: saving is a map update, and loading is a lookup that falls back to an empty level.
  - The world loads levels the caller has already read.
  - The resource registry receives the decoded sounds, textures and frame lists.

Modules follow the source files:

| file | module | models |
|---|---|---|
| `geometry.dfy`, `wrappers.dfy` | `Geometry`, `Wrappers` | vector maths, `Option` |
| `entity.dfy` | `Entities` | `Entity.cs`, `Obstacle.cs`, `Food.cs` |
| `serializable.dfy` | `Serializable` | `SerializableVector2.cs`, `SerializableRectangle.cs` |
| `kinematics.dfy` | `Kinematics` | `InverseKinematicChain` and `Arm` in `Goal.cs` |
| `goal.dfy` | `Goals` | `Goal` in `Goal.cs` |
| `creatures.dfy` | `Creatures` | steering, push-out, food pickup and tail passes shared by `Player.cs`, `Worm.cs` and `WormRenderer.cs` |
| `player.dfy` | `Players` | `Player.cs` |
| `worm.dfy` | `Worms` | `Worm.cs`, `WormRenderer.cs`, `WormBehavior.cs` |
| `enemy.dfy` | `Enemies` | `Enemy.cs` |
| `obstaclerenderer.dfy` | `ObstacleRenderers` | `ObstacleRenderer.cs` |
| `level.dfy` | `Levels` | `Level`, `WallData` and the entity list entries |
| `world.dfy` | `Worlds` | `World.cs` |
| `editor.dfy` | `Editors` | `EditorSession.cs` |
| `sprites.dfy`, `workers.dfy` | `Sprites`, `Workers` | `SpriteRenderer.cs`, `Worker.cs` and its states |
| `frog.dfy` | `Frogs` | `FrogRenderer.cs` |
| `credits.dfy` | `CreditsScreen` | `Credits.cs` |
| `resources.dfy` | `Resources` | `LdResourceAssets.cs` |

Where the source leaves something undeclared, the model does what the calling code needs:

- `World.cs:86` reads `Level.Currents`, which the `Level` class (`EditorSession.cs:226-257`) does not declare. The model gives `Level` a list of currents.
- `WormBehavior.cs:46` reads `WormRenderer.BankPercent`, which `WormRenderer.cs` does not declare. The model gives `WormRenderer` a plain stored bank value.
- `Current.cs:69` calls `Player.PushInDirection`, which `Player.cs` does not declare. Currents are therefore modelled as values only.

Some behaviour of the code is kept as written:

- **PutHeadAt.** After `InverseKinematicChain.PutHeadAt` the head need not be at its target, because the backward pass can move it.
- **LinksFromHeadToTail** yields the tail twice.
- **Minimum speed.** The player's minimum speed of 200 does not hold after its `Update`: each wall it pushes out of halves its speed.
- **Wall radius.** The editor's wall radius has no lower bound.

## Model

| member | source | states |
|---|---|---|
| Entities.Entity.constructor | LD56/Gameplay/Entity.cs:11-14 | a new entity is not flagged for destruction, sits at the origin, has scale One and depth Middle |
| Entities.Entity.Destroy | LD56/Gameplay/Entity.cs:20-23 | raises the destroy flag and leaves position, scale and depth as they were |
| Entities.ObstacleHitTestIsStrict | LD56/Gameplay/Obstacle.cs:26-29 | a point hits the wall exactly when its distance to the centre is less than the radius; a point on the rim is no hit |
| Entities.ObstacleUpdate | LD56/Gameplay/Obstacle.cs:22-24 | updating a wall leaves it as it was |
| Entities.Food.constructor | LD56/Gameplay/Food.cs:11-15 | a new food burns at full flame, does not flash, is not eaten, and satisfies the food invariant |
| Entities.Food.Update | LD56/Gameplay/Food.cs:44-65 | the shine clock advances by dt; an eaten food's flame sinks by dt but not below 0.1; a positive flash sinks by 5·dt but not below 0; nothing else changes; for dt ≥ 0 the invariant (flame 1 until eaten, flame in [0.1, 1], flash in [0, 1]) is kept |
| Entities.Food.Eat | LD56/Gameplay/Food.cs:67-71 | the food is eaten and flashes at 1; the flame, clock and position are kept; the invariant is kept |
| Entities.Food.Destroy | LD56/Gameplay/Entity.cs:20-23 | raises the food's destroy flag |
| Entities.Food.FocalWeight | LD56/Gameplay/Food.cs:73-80 | 0 once eaten, 2 before |
| Serializable.FromVector2 | LD56/Core/SerializableVector2.cs:16-20 | converting back with ToVector2 gives the original vector |
| Serializable.FromCoordinates | LD56/Core/SerializableVector2.cs:26-30 | converts back to the vector (x, y) |
| Serializable.DefaultVector | LD56/Core/SerializableVector2.cs:22-24 | converts back to the zero vector |
| Serializable.Implicit | LD56/Core/SerializableVector2.cs:32-35 | is the vector constructor, so it converts back to its argument |
| Serializable.SerializableRectangle.constructor | LD56/Core/SerializableRectangle.cs:16-24 | X, Y, Width and Height all read 0 |
| Serializable.SerializableRectangle.FromRectangle | LD56/Core/SerializableRectangle.cs:10-14 | ToRectangleF gives back the rectangle it was made from |
| Serializable.SerializableRectangle.SetX | LD56/Core/SerializableRectangle.cs:26-27 | X reads the new value; Y, Width and Height are unchanged |
| Serializable.SerializableRectangle.SetY | LD56/Core/SerializableRectangle.cs:29-30 | Y reads the new value; the other three are unchanged |
| Serializable.SerializableRectangle.SetWidth | LD56/Core/SerializableRectangle.cs:32-33 | Width reads the new value; the other three are unchanged |
| Serializable.SerializableRectangle.SetHeight | LD56/Core/SerializableRectangle.cs:34-35 | Height reads the new value; the other three are unchanged |
| Serializable.SerializableRectangle.ToRectangleF | LD56/Core/SerializableRectangle.cs:42-45 | the corner is (X, Y) and the size (Width, Height) |
| Serializable.ImplicitRectangle | LD56/Core/SerializableRectangle.cs:37-40 | a fresh wrapper that converts back to its argument |
| Kinematics.SnapWithin | LD56/Gameplay/Goal.cs:270-288 | after a snap the moved endpoint is within the link distance of the fixed one; a slack link does not move; an over-stretched link is left at exactly its distance |
| Kinematics.SnapStretched | LD56/Gameplay/Goal.cs:272-276 | an over-stretched link has distinct endpoints, so the normalisation is defined, and ends exactly at its distance |
| Kinematics.ForwardPass | LD56/Gameplay/Goal.cs:258-261 | the forward pass keeps the number of nodes |
| Kinematics.BackwardPass | LD56/Gameplay/Goal.cs:264-267 | the backward pass keeps the number of nodes |
| Kinematics.BackwardKeeps | LD56/Gameplay/Goal.cs:264-267 | on a path the backward pass from connection i never moves a node at or past i |
| Kinematics.ForwardKeeps | LD56/Gameplay/Goal.cs:258-261 | on a path the forward pass from connection i never moves a node up to i |
| Kinematics.BackwardWithin | LD56/Gameplay/Goal.cs:264-267 | connections the backward pass has fixed stay within their distances, so afterwards all are |
| Kinematics.BackwardHead | LD56/Gameplay/Goal.cs:264-267 | the head's last position comes from one snap towards node 1, and no earlier step writes it |
| Kinematics.HeadPutAtPinsTail | LD56/Gameplay/Goal.cs:254-268 | after PutHeadAt the tail is exactly at the root |
| Kinematics.HeadPutAtKeepsLinks | LD56/Gameplay/Goal.cs:254-268 | after PutHeadAt every connection is within its distance (non-negative distances) |
| Kinematics.HeadPutAtHead | LD56/Gameplay/Goal.cs:254-268 | the head ends at the target exactly when node 1 is within the first distance of the target; the backward pass can move it away; a chain without links ends with its one node at the root |
| Kinematics.InverseKinematicChain.constructor | LD56/Gameplay/Goal.cs:227-231 | a fresh chain is one node at the origin that is both head and tail, with no connections |
| Kinematics.InverseKinematicChain.AddLink | LD56/Gameplay/Goal.cs:236-242 | appends one connection from the old tail to a new node at the origin, which becomes the tail; no node moves; the path shape is kept |
| Kinematics.InverseKinematicChain.SnapA | LD56/Gameplay/Goal.cs:270-278 | the positions become SnappedA of the old positions (A pulled towards B) |
| Kinematics.InverseKinematicChain.SnapB | LD56/Gameplay/Goal.cs:280-288 | the positions become SnappedB of the old positions (B pulled towards A) |
| Kinematics.InverseKinematicChain.PutHeadAt | LD56/Gameplay/Goal.cs:254-268 | the loops compute the two passes: the tail lands on the root, the path shape is kept, and with non-negative distances every link is within its length |
| Kinematics.InverseKinematicChain.PullTowards | LD56/Gameplay/Goal.cs:244-252 | changes nothing (the source only logs a warning) |
| Kinematics.InverseKinematicChain.IsInChain | LD56/Gameplay/Goal.cs:290-301 | true exactly when some connection contains the link |
| Kinematics.InverseKinematicChain.LinksFromHeadToTail | LD56/Gameplay/Goal.cs:303-313 | the head, then every connection's B in order, then the tail once more: connections + 2 entries |
| Kinematics.AnyContains | LD56/Gameplay/Goal.cs:292-300 | the scan finds a connection containing the link exactly when one exists |
| Kinematics.Endpoints | LD56/Gameplay/Goal.cs:307-310 | the B endpoints of the connections, in order |
| Kinematics.IsInChainOnPath | LD56/Gameplay/Goal.cs:290-301 | on a valid chain a node is in the chain exactly when it exists and there is at least one connection; so a fresh chain's head is not in the chain |
| Kinematics.LinksFromHeadToTailOnPath | LD56/Gameplay/Goal.cs:303-313 | on a valid chain the result lists every node from head to tail and then the tail a second time |
| Kinematics.Linked | LD56/Gameplay/Goal.cs:236-242 | AddLink on a chain value: one node at the origin and one connection of the given distance are appended, and the path shape is kept |
| Kinematics.PathChain | LD56/Gameplay/Goal.cs:203-210 | a path of n links of the given length over origin nodes |
| Kinematics.LinkedTimesShape | LD56/Gameplay/Goal.cs:206-209 | adding links keeps the chain's nodes and connections in front and adds origin nodes behind links of the given length |
| Kinematics.LinkedPathChain | LD56/Gameplay/Goal.cs:206-209 | n AddLinks on a fresh chain build the path chain of n links |
| Kinematics.NewArm | LD56/Gameplay/Goal.cs:203-210 | a new arm holds a path chain of numberOfSegments links of length 10 (none for a negative count), at the origin, aiming at the origin, cooldown 0 |
| Kinematics.UpdatedKeeps | LD56/Gameplay/Goal.cs:217-220 | an arm update keeps its root, aim, cooldown and connections, puts the tail on the root and, with non-negative distances, keeps every link within its length |
| Goals.ArmRootsOnCircle | LD56/Gameplay/Goal.cs:34-39 | the starting arms are rooted on the circle of radius 15 around the goal |
| Goals.FirstFeeding | LD56/Gameplay/Goal.cs:106-117 | the first even-numbered arm whose head is within 25 of the food: it reaches the food and no earlier even arm does |
| Goals.Aimed | LD56/Gameplay/Goal.cs:106-131 | aiming changes neither the chain nor the root |
| Goals.AimedRanges | LD56/Gameplay/Goal.cs:106-131 | a chasing arm aims at the food, relative to the goal, and keeps its cooldown; a wandering arm whose cooldown runs out aims less than 500 from its head and rests for [5, 8); otherwise it keeps its aim and its cooldown drops by 60·dt |
| Goals.ArmsAfter | LD56/Gameplay/Goal.cs:102-134 | arm j after the loop is arm j stepped, chasing exactly when food is held near the goal, j is even, and no earlier arm has eaten |
| Goals.ArmsAfterKeeps | LD56/Gameplay/Goal.cs:102-134 | the arm loop keeps every root and every connection, pins each arm's root end at its root, keeps every link within its length, and sends every chasing arm after the food |
| Goals.Aim | LD56/Gameplay/Goal.cs:104-131 | one arm's aim and update rate; it eats exactly when it chases and its head is within 25 of the food |
| Goals.Step | LD56/Gameplay/Goal.cs:104-133 | one turn of the arm loop: aim, then the arm update at the chosen rate |
| Goals.ArmsStepped | LD56/Gameplay/Goal.cs:102-134 | the loop's arms are ArmsAfter, and the arm that ate is the first even arm to reach the food (none when no food is held near the goal) |
| Goals.Lengthened | LD56/Gameplay/Goal.cs:140-143 | every arm gets AddLink(10) and nothing else changes |
| Goals.GrownShape | LD56/Gameplay/Goal.cs:136-144 | after n feeds every old arm has n more links and is otherwise unchanged, and the k-th new arm is a full arm of 50 + n − k links |
| Goals.GrownValid | LD56/Gameplay/Goal.cs:136-144 | growth keeps every chain a path of non-negative links |
| Goals.Goal.constructor | LD56/Gameplay/Goal.cs:31-40 | ten starting arms of twelve links, rooted on the ring, no player, nothing pending; the goal invariant holds |
| Goals.Goal.IncreaseAuraLevel | LD56/Gameplay/Goal.cs:42-45 | the aura level goes up by one |
| Goals.Goal.FocalWeight | LD56/Gameplay/Goal.cs:57-60 | always 3 |
| Goals.Goal.EditorHitTest | LD56/Gameplay/Goal.cs:149-153 | never a hit |
| Goals.Goal.CreatePlayer | LD56/Gameplay/Goal.cs:47-55 | a fresh valid player at the goal, its whole tail on the head, at full speed, holding nothing, becomes the goal's player |
| Goals.Goal.KillPlayer | LD56/Gameplay/Goal.cs:187-196 | a live player is destroyed (only its destroy flag changes) and forgotten, and a reload is requested; without a player nothing happens |
| Goals.Goal.SpawningInput | LD56/Gameplay/Goal.cs:155-185 | with no player: the even arms aim up at a random spot while left is down, the odd arms while right is down; both held add dt to the timer and spawn once it passes 1; otherwise the timer runs down to no lower than 0; with a player nothing changes |
| Goals.Goal.Update | LD56/Gameplay/Goal.cs:91-147 | the consume timer runs down; the arms step; the first even arm to reach the held food eats it (the food is destroyed, the player lets go, and nothing else of either changes); each pending feed then grows a full arm and one link on every arm; the invariant is kept and nothing stays pending |
| Goals.Goal.UpdateArms | LD56/Gameplay/Goal.cs:102-134 | the arm loop, with the eating arm destroying the food and adding one pending feed; of the player only the held food and of the food only its destroy flag may change |
| Goals.Goal.GrowArms | LD56/Gameplay/Goal.cs:136-146 | the arms become Grown by the pending count, the consume timer is 1 after any growth, and nothing stays pending |
| Goals.Goal.AddFullArm | LD56/Gameplay/Goal.cs:64-69 | one full 50-link arm at the goal's centre is appended and the consume timer is set to 1 |
| Goals.Goal.AddLinkToEveryArm | LD56/Gameplay/Goal.cs:140-143 | the arms become Lengthened of the old arms |
| Creatures.ConstrainWithin | LD56/Gameplay/Player.cs:193-197 | a constrained segment is within the maximum size of its predecessor; a segment already in reach does not move; an over-stretched one ends exactly at the maximum size |
| Creatures.Followed | LD56/Gameplay/Player.cs:182-198 | a tail pass keeps the number of segments |
| Creatures.FollowedIsPointwise | LD56/Gameplay/Player.cs:182-198 | segment i after the pass is segment i constrained against its predecessor's already updated position (the head for the first) |
| Creatures.FollowedWithinReach | LD56/Gameplay/Player.cs:182-198 | after a tail pass every segment is within the maximum size of its predecessor, and a segment already in reach keeps its place |
| Creatures.FollowLeader | LD56/Gameplay/Player.cs:182-198 | the in-place loop over the segments computes Followed |
| Creatures.AllAt | LD56/Gameplay/Player.cs:47-53 | every segment at the given position |
| Creatures.Steer | LD56/Gameplay/Player.cs:109-129 | the speed after a frame is within the clamp range |
| Creatures.SteerSpeed | LD56/Gameplay/Player.cs:109-129 | without input the facing is kept and the speed does not fall; with input it does not rise |
| Creatures.SteerDistance | LD56/Gameplay/Player.cs:111-112 | the body moves exactly speed·dt along its new facing, at the speed it had before the frame |
| Creatures.SetBank | LD56/Gameplay/Player.cs:55-63 | the bank setter clamps to [−1, 1], keeps a value already in range, and sets a 0.1 s cooldown |
| Creatures.BankStaysInRange | LD56/Gameplay/Player.cs:131-134 | banking and decay keep the bank in [−1, 1]; decay never changes its sign or grows its magnitude |
| Creatures.CarriedFoodDistance | LD56/Gameplay/Player.cs:137-142 | a carried food is held exactly 50 from the head |
| Creatures.RimPositionOnRim | LD56/Gameplay/Player.cs:161-164 | a pushed-out point other than the centre lands exactly on the rim |
| Creatures.PushOutOfRim | LD56/Gameplay/Player.cs:158-167 | a body strictly inside an obstacle, and not at its centre, ends on the rim; a body outside is untouched; the speed is halved only for a push (the player) |
| Creatures.PushOutAllSpeed | LD56/Gameplay/Player.cs:156-169 | without halving the loop never changes the speed; with halving a positive speed stays positive and never grows |
| Creatures.PushOut | LD56/Gameplay/Player.cs:156-169 | the obstacle loop, in entity order, computes PushOutAll |
| Creatures.FirstEdibleFrom | LD56/Gameplay/Player.cs:144-154 | the first food at or after an index that is within 100 and not eaten; none before it is; none when there is none |
| Creatures.FirstEdible | LD56/Gameplay/Player.cs:144-154 | the first edible food in entity order, or none when no food is edible |
| Creatures.PickUpFood | LD56/Gameplay/Player.cs:144-154 | with nothing held the first edible food is taken and eaten and no other food changes; with something held nothing changes |
| Creatures.CarryOrPickUp | LD56/Gameplay/Player.cs:137-154 | a held food is moved to the carrying position and nothing else changes; with nothing held the food is picked up as above |
| Creatures.AnyCloserThan | LD56/Gameplay/Player.cs:228-234 | true exactly when some point is strictly closer than the radius |
| Players.Player.constructor | LD56/Gameplay/Player.cs:27-45 | facing up (−π/2) at the minimum speed of 200, nine tail segments at the default position, nothing held; the player invariant holds |
| Players.Player.MoveAllTailSegmentsToHead | LD56/Gameplay/Player.cs:47-53 | every segment is at the head and the tail keeps its length |
| Players.Player.SetBankPercent | LD56/Gameplay/Player.cs:55-63 | the bank becomes SetBank of the value: clamped to [−1, 1], with a 0.1 s cooldown |
| Players.Player.Update | LD56/Gameplay/Player.cs:107-172 | the body is steered, then pushed out of the obstacles in entity order at half speed each; the bank is banked with the input, then decays; the recovery counts down; a held food is carried 50 ahead with every other field of it kept, otherwise the first edible food is picked up; the tail follows the new head; the invariant is kept |
| Players.Player.Advance | LD56/Gameplay/Player.cs:109-134 | Update without the food step: steer, bank, push out, tail pass; the invariant is kept |
| Players.Player.Move | LD56/Gameplay/Player.cs:109-134 | the body becomes Steer of the old body, the bank is Banked at the new speed, and the recovery counts down while positive |
| Players.Player.PushOutOfObstacles | LD56/Gameplay/Player.cs:156-169 | the body becomes PushOutAll of the old body with halving |
| Players.Player.EditorHitTest | LD56/Gameplay/Player.cs:174-178 | never a hit |
| Players.Player.UpdateDrawingRelatedStuff | LD56/Gameplay/Player.cs:180-210 | the tail follows the head, the furl drops by 2·dt within [0, 1], and the bank decays once its cooldown is over |
| Players.Player.Destroy | LD56/Gameplay/Entity.cs:20-23 | raises the destroy flag |
| Players.Player.DeleteFood | LD56/Gameplay/Player.cs:216-219 | the player holds nothing |
| Players.Player.IsHurtAt | LD56/Gameplay/Player.cs:221-237 | true exactly when the point is strictly within 50 of the head or of some tail segment |
| Players.Player.TakeDamage | LD56/Gameplay/Player.cs:239-256 | ignored while recovering; otherwise a one-second recovery starts and the last segment is dropped or, with one segment left, the player dies; nothing else changes and the tail is never emptied |
| Players.Player.Boost | LD56/Gameplay/Player.cs:258-261 | the speed becomes the maximum, 1200 |
| Players.PushOutHalvesBelowMinimum | LD56/Gameplay/Player.cs:129-166 | the speed clamp is no lower bound for the frame: a push-out at the minimum speed leaves the player at half of it |
| Players.UpdateSpeedBounds | LD56/Gameplay/Player.cs:121-169 | after a frame the speed is in (0, 1200] |
| Players.IsHurtAtIsStrictLength | LD56/Gameplay/Player.cs:221-237 | with a true square root IsHurtAt is the strict length test against the head and every segment |
| Worms.Worm.constructor | LD56/Gameplay/Worm.cs:26-44 | facing along the x axis at the minimum speed of 200, nine tail segments at their default position, nothing held; the worm invariant holds |
| Worms.Worm.SetBankPercent | LD56/Gameplay/Worm.cs:46-54 | the bank becomes SetBank of the value: clamped to [−1, 1], with a 0.1 s cooldown |
| Worms.Worm.Update | LD56/Gameplay/Worm.cs:92-150 | the body is steered with an acceleration of 200 and pushed out of the obstacles without braking; the bank follows the input and decays; a held food is carried with every other field of it kept, otherwise the first edible food is picked up; the tail follows the new head; the invariant is kept |
| Worms.Worm.Move | LD56/Gameplay/Worm.cs:92-113 | the body becomes Steer of the old body and the bank is Banked at the new speed |
| Worms.Worm.PushOutOfObstacles | LD56/Gameplay/Worm.cs:135-147 | the body becomes PushOutAll of the old body without halving |
| Worms.Worm.UpdateDrawingRelatedStuff | LD56/Gameplay/Worm.cs:152-182 | the tail follows the head, the furl drops by 2·dt within [0, 1], and the bank decays once its cooldown is over |
| Worms.Worm.DeleteFood | LD56/Gameplay/Worm.cs:188-191 | the worm holds nothing |
| Worms.WormSpeedAfterUpdate | LD56/Gameplay/Worm.cs:100-147 | the obstacles never change the worm's speed, which stays in [200, 800] |
| Worms.WormRenderer.constructor | LD56/Gameplay/WormRenderer.cs:17-26 | six segments at the default position, unfurled, the renderer invariant holds |
| Worms.WormRenderer.Update | LD56/Gameplay/WormRenderer.cs:61-82 | the six segments follow the entity 25 apart and the furl drops by 2·dt within [0, 1]; the invariant is kept |
| Worms.WormRenderer.Furl | LD56/Gameplay/WormRenderer.cs:84-87 | the tail is fully furled |
| Worms.WormBehavior.constructor | LD56/Gameplay/WormBehavior.cs:17-26 | facing along the x axis at the minimum speed of 200 |
| Worms.WormBehavior.Update | LD56/Gameplay/WormBehavior.cs:34-48 | the entity is steered by the behaviour's handling; the renderer banks by the input at the new speed only when there is input |
| Worms.WormBehavior.Jet | LD56/Gameplay/WormBehavior.cs:50-54 | the speed rises by an eighth of the maximum and the renderer is fully furled |
| Worms.BehaviorSteering | LD56/Gameplay/WormBehavior.cs:36-42 | the speed falls by 100 per second and is clamped to [200, 800]; the facing turns by the input scaled by the speed from before the decay |
| Enemies.ObstacleOnTheLineBlocks | LD56/Gameplay/Enemy.cs:143-162 | an obstacle of radius 100 centred half-way between the enemy and the target blocks the view |
| Enemies.OffAxisObstaclesAreClear | LD56/Gameplay/Enemy.cs:143-162 | obstacles that keep clear of the line between enemy and target never block the view |
| Enemies.ObstacleOffTheLineIsClear | LD56/Gameplay/Enemy.cs:143-162 | the same obstacle moved off the line leaves the view clear |
| Enemies.ProbeKeepsOffTheEnds | LD56/Gameplay/Enemy.cs:147-149 | every sample lies at least 5% of the way from the enemy and at least 1% of the way from the target |
| Enemies.EndpointsAreNotSampled | LD56/Gameplay/Enemy.cs:147-159 | an enemy inside one obstacle and a target inside another still see each other when the obstacles stay within those 5% and 1% |
| Enemies.LastVisible | LD56/Gameplay/Enemy.cs:97-106 | the index of the last player in entity order that is in range and in sight, or none when no player is |
| Enemies.PursuedIsBounded | LD56/Gameplay/Enemy.cs:110-124 | after the chase step, with or without the bite boost, the speed is at most 1700 |
| Enemies.BouncedOffQuartersSquaredSpeed | LD56/Gameplay/Enemy.cs:84-91 | an obstacle the enemy is strictly inside halves its speed; an obstacle it is clear of leaves it as it is |
| Enemies.BouncedOffOnRim | LD56/Gameplay/Enemy.cs:88-89 | an enemy pushed out of an obstacle, not at its centre, ends on the rim |
| Enemies.BouncedOffFirstIsBounded | LD56/Gameplay/Enemy.cs:81-93 | the obstacle loop keeps the speed at most 1700 |
| Enemies.Enemy.constructor | LD56/Gameplay/Enemy.cs:19-22 | at rest at the given position, with no target, its clock at zero |
| Enemies.Enemy.IsAlert | LD56/Gameplay/Enemy.cs:24 | alert exactly when it has a target |
| Enemies.Enemy.FocalWeight | LD56/Gameplay/Enemy.cs:26-29 | the weight is 3 |
| Enemies.Enemy.EditorHitTest | LD56/Gameplay/Enemy.cs:164-167 | a hit exactly when the mouse is strictly within 100 |
| Enemies.Enemy.TestLineOfSightTo | LD56/Gameplay/Enemy.cs:143-162 | clear exactly when no sample 5/100 … 99/100 of the segment lies strictly inside an obstacle |
| Enemies.Enemy.Update | LD56/Gameplay/Enemy.cs:79-136 | bounce off the obstacles in entity order; without a target acquire the last visible player, with one chase it and bite it when it is hurt at the enemy's position; drop a target out of range or sight and stop; then move and advance the clock; the speed stays at most 1700 |
| Enemies.Enemy.Chase | LD56/Gameplay/Enemy.cs:95-125 | without a target the last visible player becomes the target; with one the velocity is the pursuit step and the target takes damage exactly when it is hurt at the enemy's position |
| Enemies.Enemy.BounceOffObstacles | LD56/Gameplay/Enemy.cs:81-93 | position and velocity become the obstacle loop of the old ones |
| Enemies.Enemy.Acquire | LD56/Gameplay/Enemy.cs:97-106 | the target becomes the last player in entity order that is in range and in sight |
| Enemies.Enemy.Pursue | LD56/Gameplay/Enemy.cs:110-124 | accelerate towards the target, twice as hard again after a bite, then cap at 1700; the target is damaged exactly when it is hurt at the enemy's position |
| Enemies.Enemy.DropLostTarget | LD56/Gameplay/Enemy.cs:127-131 | a target out of range or out of sight is dropped and the enemy stops; otherwise nothing changes |
| Enemies.RangeTestsAreStrict | LD56/Gameplay/Enemy.cs:138-141 | under a true square root the range test is strictly closer than 1920 and the editor hit test strictly closer than 100 |
| ObstacleRenderers.RingFirst | LD56/Gameplay/ObstacleRenderer.cs:22-29 | the ring loop yields one segment per step, segment k running from angle k·π/16 to (k+1)·π/16 |
| ObstacleRenderers.Rings | LD56/Gameplay/ObstacleRenderer.cs:20-30 | 32 segments per obstacle in entity order, segment k of obstacle i at position 32·i + k |
| ObstacleRenderers.HiddenBy | LD56/Gameplay/ObstacleRenderer.cs:34-42 | the segments collected for removal are exactly those with both endpoints strictly inside the obstacle |
| ObstacleRenderers.ShownPast | LD56/Gameplay/ObstacleRenderer.cs:32-48 | the segments left after one obstacle's pass are exactly those it does not hide |
| ObstacleRenderers.RemoveFirst | LD56/Gameplay/ObstacleRenderer.cs:46 | removing a segment that is absent changes nothing; removing one that is present shortens the list by one |
| ObstacleRenderers.RemoveEachPastShown | LD56/Gameplay/ObstacleRenderer.cs:44-47 | removing hidden segments never removes a segment in front that is not hidden |
| ObstacleRenderers.RemovingHiddenLeavesShown | LD56/Gameplay/ObstacleRenderer.cs:34-47 | removing the collected segments one by one leaves exactly the unhidden segments in their order |
| ObstacleRenderers.ShownPastFirstMembers | LD56/Gameplay/ObstacleRenderer.cs:32-48 | a segment survives the passes exactly when it was drawn and no obstacle hides it |
| ObstacleRenderers.OutlineMembers | LD56/Gameplay/ObstacleRenderer.cs:15-49 | the outline holds exactly the ring segments that no obstacle hides |
| ObstacleRenderers.RingPointDistance | LD56/Gameplay/ObstacleRenderer.cs:25-26 | every ring point lies at radius + 2 from its obstacle's centre |
| ObstacleRenderers.OwnRingIsShown | LD56/Gameplay/ObstacleRenderer.cs:25-41 | no obstacle hides a segment of its own ring |
| ObstacleRenderers.ObstacleRenderer.constructor | LD56/Gameplay/ObstacleRenderer.cs:15-49 | drawn at depth Middle − 10, holding the outline of the world's obstacles |
| ObstacleRenderers.ObstacleRenderer.EditorHitTest | LD56/Gameplay/ObstacleRenderer.cs:67-70 | never a hit |
| ObstacleRenderers.BuildRings | LD56/Gameplay/ObstacleRenderer.cs:20-30 | the first loop builds the rings of all obstacles |
| ObstacleRenderers.RemoveHidden | LD56/Gameplay/ObstacleRenderer.cs:32-48 | the second loop leaves what survives every obstacle's pass |
| ObstacleRenderers.RemoveLines | LD56/Gameplay/ObstacleRenderer.cs:44-47 | a first-occurrence removal for each collected segment in turn |
| ObstacleRenderers.HiddenBySnoc | LD56/Gameplay/ObstacleRenderer.cs:35-41 | adding one segment extends the collected list by that segment exactly when the obstacle hides it |
| ObstacleRenderers.LinesToRemove | LD56/Gameplay/ObstacleRenderer.cs:34-42 | the inner loop collects the segments the obstacle hides, in order |
| Levels.NewWallData | LD56/Gameplay/EditorSession.cs:260-267 | a new wall record is at the origin with radius 100 |
| Levels.NoWalls | LD56/Gameplay/ObstacleRenderer.cs:20 | filtering entries that hold no obstacle yields no obstacle |
| Levels.WallsAppend | LD56/Gameplay/ObstacleRenderer.cs:20 | the obstacles of a concatenation are those of each part, in order |
| Levels.Without | LD56/Gameplay/EditorSession.cs:244-254 | what RemoveAll by position leaves: exactly the elements not at the position, in order, and everything when none is at it |
| Levels.WithoutIsIdempotent | LD56/Gameplay/EditorSession.cs:244-254 | removing the elements at a position a second time removes nothing more |
| Levels.WithoutAppendedAt | LD56/Gameplay/EditorSession.cs:244-254 | an element appended at the position is removed with the others |
| Levels.DeletedRelated | LD56/Gameplay/EditorSession.cs:240-256 | deleting an obstacle removes exactly the wall records at its position, a food exactly the food points at its position, an enemy exactly the enemy points at its position; every other list and every other entity kind are left alone |
| Levels.DeletedRelatedIsIdempotent | LD56/Gameplay/EditorSession.cs:240-256 | deleting the related data of the same entity twice deletes nothing more |
| Levels.Level.constructor | LD56/Gameplay/EditorSession.cs:226-238 | a new level has its spawn at the origin and every list empty |
| Levels.Level.DeleteRelatedData | LD56/Gameplay/EditorSession.cs:240-256 | the level's data becomes DeletedRelated of the old data |
| Levels.Level.FromData | LD56/Gameplay/World.cs:59-61 | a level read from a file holds exactly the data the file gives |
| Worlds.PlacedWalls | LD56/Gameplay/World.cs:81-84 | one obstacle per wall record, in file order, each at its file position plus the offset with the record's radius |
| Worlds.Imports | LD56/Gameplay/World.cs:79-106 | a load appends one entry per wall, current, food and enemy of the file, and last the outline renderer |
| Worlds.WallEntities | LD56/Gameplay/World.cs:81-84 | the wall loop appends, in file order, a wall created by CreateWall at the record's position plus the offset |
| Worlds.CurrentEntities | LD56/Gameplay/World.cs:86-89 | the current loop appends, in file order, a current created by CreateCurrent with the record's position plus the offset, radius and angle |
| Worlds.FoodEntities | LD56/Gameplay/World.cs:91-96 | each new food becomes one entry, in order |
| Worlds.EnemyEntities | LD56/Gameplay/World.cs:98-103 | each new enemy becomes one entry, in order |
| Worlds.LoadedWalls | LD56/Gameplay/World.cs:79-104 | after the loops the world's obstacles are the earlier ones followed by the level's walls; currents, foods and enemies add none |
| Worlds.ImportedWalls | LD56/Gameplay/World.cs:79-106 | the obstacles a load adds are exactly the level's walls, moved by the offset, in file order |
| Worlds.WallEntitiesWalls | LD56/Gameplay/World.cs:81-84 | the obstacles among the wall loop's entries are the placed walls |
| Worlds.KeptOnReload | LD56/Gameplay/World.cs:73 | only players and goals are kept, every one of them is kept, and nothing is added |
| Worlds.NoWallsKeptOnReload | LD56/Gameplay/World.cs:73 | a seamless load leaves no obstacle of the old level behind |
| Worlds.KeptOnReloadIsIdempotent | LD56/Gameplay/World.cs:73 | filtering an already filtered list keeps every entry |
| Worlds.OffsetPutsSpawnOnGoal | LD56/Gameplay/World.cs:75 | the seamless offset moves the file's spawn point onto the goal |
| Worlds.ImportedAtZero | LD56/Gameplay/World.cs:32 | with offset zero every wall, food and enemy stands at its file position |
| Worlds.World.constructor | LD56/Gameplay/World.cs:19-24 | a goal of its own, no entities, level index 0, no reload requested |
| Worlds.World.CreatePlayerAndGoal | LD56/Gameplay/World.cs:35-41 | a new goal at the spawn point becomes the world's goal and is appended; earlier entries stay |
| Worlds.World.LoadLevelWithOffset | LD56/Gameplay/World.cs:79-106 | the level's entities, moved by the offset, are appended after the present ones; the foods and enemies are new and placed in file order, and the renderer outlines every obstacle the world then holds |
| Worlds.World.LoadLevel | LD56/Gameplay/World.cs:26-33 | the list becomes the new goal at the spawn followed by the level's entities at their file positions, with the outline of those walls only |
| Worlds.World.LoadLevelSeamless | LD56/Gameplay/World.cs:71-77 | only players and goals stay; the level is appended moved so that its spawn lands on the goal, and the outline covers the new walls only |
| Worlds.World.LoadCurrentLevel | LD56/Gameplay/World.cs:57-69 | with spawnNewPlayer a new goal at the spawn is added first; then the seamless load |
| Worlds.World.PlayerDied | LD56/Gameplay/World.cs:108-112 | the goal's player is destroyed (only its destroy flag changes) and removed, and a reload is requested exactly when there was one; nothing else of the goal changes |
| Worlds.World.LoadNextLevel | LD56/Gameplay/World.cs:114-119 | the level index and the aura level go up by one, then the next level is loaded seamlessly |
| Worlds.World.SkipLevel | LD56/Gameplay/World.cs:126-131 | the level index goes up by one and the aura level stays; then the next level is loaded seamlessly |
| Worlds.World.RequestReload | LD56/Gameplay/World.cs:121-124 | the reload flag is raised and nothing else changes |
| Worlds.World.AddSpawnedPlayer | LD56/Gameplay/Goal.cs:47-55 | the spawned player is appended to the entity list |
| Worlds.NewOutline | LD56/Gameplay/World.cs:105 | a fresh renderer with the outline of the given obstacles |
| Worlds.PlacedFood | LD56/Gameplay/World.cs:93-95 | a fresh, uneaten food at the point |
| Worlds.PlacedEnemy | LD56/Gameplay/World.cs:100-101 | a fresh enemy at rest at the point with no target |
| Worlds.NewFoods | LD56/Gameplay/World.cs:91-96 | a fresh food per point, moved by the offset, in order |
| Worlds.NewEnemies | LD56/Gameplay/World.cs:98-103 | a fresh enemy per point, moved by the offset, in order |
| Editors.PreviousTool | LD56/Gameplay/EditorSession.cs:94-101 | A selects the previous tool, wrapping from the first to the last: the index minus one, modulo the four tools |
| Editors.NextTool | LD56/Gameplay/EditorSession.cs:103-107 | D selects the next tool, wrapping from the last to the first |
| Editors.ToolKeysAreInverse | LD56/Gameplay/EditorSession.cs:94-107 | A and D undo each other on every tool index |
| Editors.PreviousLevel | LD56/Gameplay/EditorSession.cs:112-116 | Q steps back one level but never below level 0 |
| Editors.NextLevel | LD56/Gameplay/EditorSession.cs:125 | E steps forward exactly one level |
| Editors.LevelKeysReturn | LD56/Gameplay/EditorSession.cs:109-128 | Q undoes E on every reachable level index |
| Editors.Digits | LD56/Gameplay/EditorSession.cs:203 | the decimal digits of a number, at least one, with no leading zero |
| Editors.DigitValue | LD56/Gameplay/EditorSession.cs:203 | a digit character's value, and the digit character of that value is the character |
| Editors.ParseDigitsOfDigits | LD56/Gameplay/EditorSession.cs:203 | reading back the digits of a number gives the number |
| Editors.Decimal | LD56/Gameplay/EditorSession.cs:203 | the written form of an integer starts with a minus sign exactly when it is negative |
| Editors.DigitsIsInjective | LD56/Gameplay/EditorSession.cs:203 | different numbers have different digits |
| Editors.DecimalIsInjective | LD56/Gameplay/EditorSession.cs:203 | different integers are written differently |
| Editors.LevelName | LD56/Gameplay/EditorSession.cs:201-204 | the file of a level is "Levels/level", the written index, then ".json" |
| Editors.LevelNameIsInjective | LD56/Gameplay/EditorSession.cs:201-204 | different levels are kept in different files |
| Editors.PlaceWallTool.constructor | LD56/Gameplay/EditorSession.cs:277-279 | the wall tool starts with radius 50 |
| Editors.Used | LD56/Gameplay/EditorSession.cs:209-294 | the player tool moves the spawn to the mouse; the wall, food and enemy tools each append one record at the mouse to their own list (a wall with the tool's radius); every other part of the level stays |
| Editors.DeleteUndoesPlacement | LD56/Gameplay/EditorSession.cs:209-256 | deleting what sits at a point after placing a wall, food or enemy there leaves the level as if only the deletion had happened; a food placed where no food was is undone exactly |
| Editors.UseTool | LD56/Gameplay/EditorSession.cs:76-79 | the level becomes Used of the old level with the current tool at the mouse |
| Editors.AdjustedRadius | LD56/Gameplay/EditorSession.cs:141-158 | plus adds the step of 10, minus takes it away, Shift makes it 100, and pressing both cancels |
| Editors.RadiusHasNoLowerBound | LD56/Gameplay/EditorSession.cs:154-157 | six presses of minus take the initial radius below zero: nothing keeps it positive |
| Editors.LoadedFrom | LD56/Gameplay/EditorSession.cs:189-193 | a missing file gives a new empty level |
| Editors.Saved | LD56/Gameplay/EditorSession.cs:195-199 | the level is written to its own file and every other file and every other part of the state stays |
| Editors.Loaded | LD56/Gameplay/EditorSession.cs:189-193 | the edited level is replaced by the content of its file; nothing else changes |
| Editors.LoadAfterSaveKeepsLevel | LD56/Gameplay/EditorSession.cs:189-199 | saving and reading back the same file gives the level that was being edited |
| Editors.KeyQ | LD56/Gameplay/EditorSession.cs:109-119 | Q saves, steps back one level (not below zero) and reads that level's file |
| Editors.KeyE | LD56/Gameplay/EditorSession.cs:121-128 | E saves, steps forward one level and reads that level's file |
| Editors.QAfterEReturns | LD56/Gameplay/EditorSession.cs:109-128 | E then Q returns to the same level with its edits, which E saved to its file |
| Editors.QOnFirstLevelKeepsLevel | LD56/Gameplay/EditorSession.cs:109-119 | Q on level 0 stays on level 0 with the edits |
| Editors.Clicked | LD56/Gameplay/EditorSession.cs:76-79 | a left click uses the current tool at the mouse; nothing else changes |
| Editors.ToolKeys | LD56/Gameplay/EditorSession.cs:94-107 | A and D change only the tool index, which stays in range |
| Editors.LevelKeys | LD56/Gameplay/EditorSession.cs:109-128 | Q and E keep the tool and the radius |
| Editors.SaveKeys | LD56/Gameplay/EditorSession.cs:130-139 | Ctrl-S or F5 saves the level to its file; otherwise nothing changes |
| Editors.RadiusKeys | LD56/Gameplay/EditorSession.cs:141-158 | plus and minus change the radius only while the wall tool is selected |
| Editors.KeysApplied | LD56/Gameplay/EditorSession.cs:94-158 | the keys in the editor's order keep the tool and level indices in range |
| Editors.RadiusOnlyWithWallTool | LD56/Gameplay/EditorSession.cs:141-158 | without the wall tool and without A or D the radius and the tool stay |
| Editors.FilesChangeOnlyBySaving | LD56/Gameplay/EditorSession.cs:109-139 | without Q, E, Ctrl-S or F5 the files, the level and the level index stay |
| Editors.LeavingSavesTheLevel | LD56/Gameplay/EditorSession.cs:135-139 | after F5 the current level's file holds the level being edited |
| Editors.FirstHit | LD56/Gameplay/EditorSession.cs:83-91 | the first entity in list order whose hit test passed, or the end when none did |
| Editors.FirstHitIs | LD56/Gameplay/EditorSession.cs:83-91 | an index is the first hit exactly when every earlier test missed and it hit |
| Editors.EditorSession.constructor | LD56/Gameplay/EditorSession.cs:24-38 | a session on level 0 with the player tool selected, the wall radius 50 and level 0's file loaded |
| Editors.EditorSession.SaveCurrentLevel | LD56/Gameplay/EditorSession.cs:195-199 | the state becomes Saved of the old state |
| Editors.EditorSession.LoadCurrentLevel | LD56/Gameplay/EditorSession.cs:189-193 | the state becomes Loaded of the old state, with a new level object |
| Editors.EditorSession.DeleteUnderMouse | LD56/Gameplay/EditorSession.cs:81-92 | the first entity hit has its level data deleted and no other; a deletion happens exactly when some entity is hit |
| Editors.EditorSession.UpdateInput | LD56/Gameplay/EditorSession.cs:48-159 | the left click, then the right click, which ends the frame once it deletes something, then the keys in order; play is requested exactly on F5 in a frame that deleted nothing |
| Editors.EditorSession.HandleKeys | LD56/Gameplay/EditorSession.cs:94-158 | the state becomes KeysApplied of the old state |
| Editors.EditorSession.HandleToolKeys | LD56/Gameplay/EditorSession.cs:94-107 | the state becomes ToolKeys of the old state |
| Editors.EditorSession.HandleLevelKeys | LD56/Gameplay/EditorSession.cs:109-128 | the state becomes LevelKeys of the old state |
| Editors.EditorSession.HandleSaveKeys | LD56/Gameplay/EditorSession.cs:130-139 | the state becomes SaveKeys of the old state, and play is requested exactly on F5 |
| Editors.EditorSession.HandleRadiusKeys | LD56/Gameplay/EditorSession.cs:141-158 | the state becomes RadiusKeys of the old state |
| Sprites.TimeAfterSet | LD56/Gameplay/SpriteRenderer.cs:28-37 | asking for the playing animation keeps the clock; switching resets it to zero |
| Sprites.SetAnimationTwiceIsOnce | LD56/Gameplay/SpriteRenderer.cs:28-37 | asking twice for the same animation restarts it at most once |
| Sprites.Truncate | LD56/Gameplay/SpriteRenderer.cs:42 | the cast to int drops the fraction towards zero |
| Sprites.TruncateIsMonotone | LD56/Gameplay/SpriteRenderer.cs:42 | the cast keeps the order of its arguments |
| Sprites.ClampInt | LD56/Gameplay/SpriteRenderer.cs:42 | the clamp lies within its bounds and is the value itself when that does |
| Sprites.DrawDepth | LD56/Gameplay/SpriteRenderer.cs:42 | the draw depth is a valid depth, and the entity's depth less its height when that is one |
| Sprites.LowerSpritesAreNotBehind | LD56/Gameplay/SpriteRenderer.cs:42 | a sprite lower on screen is never drawn behind one above it |
| Sprites.SpriteRenderer.constructor | LD56/Gameplay/SpriteRenderer.cs:16-26 | on the sheet's default animation, the clock at zero, 10 frames per second, not flipped |
| Sprites.SpriteRenderer.SetAnimation | LD56/Gameplay/SpriteRenderer.cs:28-37 | the animation is the one asked for and the clock is TimeAfterSet of the old one |
| Sprites.SpriteRenderer.Update | LD56/Gameplay/SpriteRenderer.cs:45-48 | the clock runs by the step |
| Sprites.SpriteRenderer.Depth | LD56/Gameplay/SpriteRenderer.cs:42 | a valid depth |
| Workers.WanderVelocityLength | LD56/Gameplay/WanderState.cs:38 | a wandering worker that moves does so at speed 0.25 |
| Workers.WalkStep | LD56/Gameplay/WalkingToDestinationState.cs:20-42 | the destination stays, and the worker has arrived exactly when it had or is now closer than 1 |
| Workers.WanderStep | LD56/Gameplay/WanderState.cs:28-55 | an expired timer flips between standing and moving and takes the new wait; the timer then runs down by the step |
| Workers.WanderPhasesLast | LD56/Gameplay/WanderState.cs:23-55 | with waits from [1, 3) and frames under a second the timer never expires two frames in a row |
| Workers.WorkerState.WalkTo | LD56/Gameplay/WalkingToDestinationState.cs:13-18 | walking to the destination, not arrived, not finished |
| Workers.WorkerState.Wander | LD56/Gameplay/WanderState.cs:16-21 | standing, waiting for the drawn time, not finished |
| Workers.WorkerState.MarkAsFinished | LD56/Gameplay/WorkerState.cs:9-12 | the finished flag is raised |
| Workers.Worker.constructor | LD56/Gameplay/Worker.cs:12-17 | at rest with speed 3, walking to (500, 500); the worker invariant holds |
| Workers.Worker.UpdateWalking | LD56/Gameplay/WalkingToDestinationState.cs:20-42 | on arrival the worker stops and the state finishes; otherwise it heads for the destination at unit speed with the walk animation |
| Workers.Worker.UpdateWandering | LD56/Gameplay/WanderState.cs:28-55 | an expired timer stops a moving worker or sets a standing one off in the drawn direction; the animation shows whether it moves |
| Workers.Worker.Face | LD56/Gameplay/Worker.cs:36-44 | the sprite faces left when moving left, right when moving right, and keeps its facing when moving vertically |
| Workers.Worker.Update | LD56/Gameplay/Worker.cs:28-52 | the state updates (the walking or wandering velocity, state and animation as in the two state updates), a finished state is replaced by a new wander state, the sprite faces the motion (flipped by the sign of the velocity's x) and the entity moves by velocity × 60 × dt × speed, its other fields kept; the invariant is kept |
| CreditsScreen.Fade | LD56/Gameplay/Credits.cs:38-41 | zero before the delay, rising linearly over one second, then one |
| CreditsScreen.FadeGrowsWithTime | LD56/Gameplay/Credits.cs:38-41 | a line only grows more opaque as time passes |
| CreditsScreen.FadeShrinksWithDelay | LD56/Gameplay/Credits.cs:38-41 | a longer delay is never more opaque |
| CreditsScreen.LinesAppearInOrder | LD56/Gameplay/Credits.cs:29-41 | the title is at least as visible as the author line, and that at least as visible as the tools line |
| CreditsScreen.Credits.constructor | LD56/Gameplay/Credits.cs:10 | the clock starts at zero |
| CreditsScreen.Credits.Update | LD56/Gameplay/Credits.cs:16-19 | the clock runs by the step |
| CreditsScreen.Credits.CalculateFade | LD56/Gameplay/Credits.cs:38-41 | within [0, 1], zero before the delay and one a second after it |
| CreditsScreen.Credits.EditorHitTest | LD56/Gameplay/Credits.cs:21-24 | never a hit |
| Frogs.Aged | LD56/Gameplay/FrogRenderer.cs:196-199 | every ring is one step older, in order |
| Frogs.Unfaded | LD56/Gameplay/FrogRenderer.cs:201 | exactly the rings younger than one second are kept |
| Frogs.UnfadedOfYoungRings | LD56/Gameplay/FrogRenderer.cs:201 | when no ring is spent, none is removed and the order stays |
| Frogs.Splashed | LD56/Gameplay/FrogRenderer.cs:226-230 | the pad wobbles with the intensity and one new ring is appended |
| Frogs.Swayed | LD56/Gameplay/FrogRenderer.cs:154-166 | falling and breathing change neither the position, the legs, the rings nor the flags |
| Frogs.Abs | LD56/Gameplay/FrogRenderer.cs:154 | the absolute value |
| Frogs.Landed | LD56/Gameplay/FrogRenderer.cs:168-176 | below the pad the frog is put on it, stops, folds its legs to −0.25, starts rebounding and splashes with intensity 5; otherwise nothing changes |
| Frogs.Rebounded | LD56/Gameplay/FrogRenderer.cs:183-192 | rebounding legs unfold at 4 per second and the rebound ends once they are straight |
| Frogs.Fallen | LD56/Gameplay/FrogRenderer.cs:194 | the frog moves vertically only, and nothing else changes |
| Frogs.Extended | LD56/Gameplay/FrogRenderer.cs:203-213 | extending legs stretch at 25 per second; once fully stretched the frog leaps at 500 and the extension ends |
| Frogs.Settled | LD56/Gameplay/FrogRenderer.cs:215-223 | stretched legs relax at half a unit per second, never below straight |
| Frogs.RingsStayYoung | LD56/Gameplay/FrogRenderer.cs:196-201 | after a frame every ring kept is again younger than the lifetime |
| Frogs.LandingKeepsValid | LD56/Gameplay/FrogRenderer.cs:154-176 | swaying and landing keep the legs in range, folded only while rebounding, and every ring young |
| Frogs.ReboundKeepsValid | LD56/Gameplay/FrogRenderer.cs:178-194 | the wobble, the rebound and the fall keep the frog valid |
| Frogs.AgeingKeepsValid | LD56/Gameplay/FrogRenderer.cs:196-201 | ageing the rings keeps the frog valid |
| Frogs.StretchKeepsValid | LD56/Gameplay/FrogRenderer.cs:203-223 | extending and relaxing keep the legs within [−0.25, 1] |
| Frogs.FrogStepKeepsValid | LD56/Gameplay/FrogRenderer.cs:154-223 | every frame with a non-negative step keeps the frog valid |
| Frogs.RestingFrogStays | LD56/Gameplay/FrogRenderer.cs:154-194 | a frog at rest on the pad with nothing extending stays where it is |
| Frogs.Jumped | LD56/Gameplay/FrogRenderer.cs:232-236 | the legs start extending and the pad splashes with intensity 2 |
| Frogs.JumpKeepsValid | LD56/Gameplay/FrogRenderer.cs:232-236 | a jump keeps the frog valid |
| Frogs.FrogRenderer.constructor | LD56/Gameplay/FrogRenderer.cs:28-48 | on the pad where the entity stands, at rest, with no rings and the eyelid at 0.6; the frog is valid |
| Frogs.FrogRenderer.Splash | LD56/Gameplay/FrogRenderer.cs:226-230 | the state becomes Splashed of the old state |
| Frogs.FrogRenderer.Jump | LD56/Gameplay/FrogRenderer.cs:232-236 | the state becomes Jumped of the old state |
| Frogs.FrogRenderer.Sway | LD56/Gameplay/FrogRenderer.cs:154-166 | the state becomes Swayed of the old state |
| Frogs.FrogRenderer.Land | LD56/Gameplay/FrogRenderer.cs:168-176 | the state becomes Landed of the old state |
| Frogs.FrogRenderer.Rebound | LD56/Gameplay/FrogRenderer.cs:178-194 | the state becomes the wobble, rebound and fall of the old state |
| Frogs.FrogRenderer.AgeRings | LD56/Gameplay/FrogRenderer.cs:196-201 | the rings are aged in place and the spent ones removed |
| Frogs.FrogRenderer.Stretch | LD56/Gameplay/FrogRenderer.cs:203-223 | the state becomes Settled of Extended of the old state |
| Frogs.FrogRenderer.Update | LD56/Gameplay/FrogRenderer.cs:132-224 | the state becomes FrogStep of the old state, which keeps the frog valid |
| Resources.Removed | LD56/CartridgeManagement/LdResourceAssets.cs:57-59 | removing an extension never lengthens the key |
| Resources.RemovedWithoutOccurrence | LD56/CartridgeManagement/LdResourceAssets.cs:57-59 | a key without the extension is left as it is |
| Resources.Split | LD56/CartridgeManagement/LdResourceAssets.cs:60 | at least one piece, no piece holds a space, and a key without a space is one piece |
| Resources.JoinSplit | LD56/CartridgeManagement/LdResourceAssets.cs:60-68 | joining the pieces with spaces gives back the key |
| Resources.SplitCount | LD56/CartridgeManagement/LdResourceAssets.cs:60-62 | a key splits into more than one piece exactly when it holds a space |
| Resources.JoinLast | LD56/CartridgeManagement/LdResourceAssets.cs:65-68 | the joined pieces are the join of all but the last, a space, and the last |
| Resources.WithoutLastWord | LD56/CartridgeManagement/LdResourceAssets.cs:62-66 | the last word is dropped exactly when there is more than one |
| Resources.SheetNameOfOneWord | LD56/CartridgeManagement/LdResourceAssets.cs:55-68 | a stripped key without a space is its own sheet name |
| Resources.SheetNameDropsLastWord | LD56/CartridgeManagement/LdResourceAssets.cs:55-68 | a stripped key with a space is its sheet name, a space, and a last word without a space |
| Resources.AsepriteExtensionIsRemovedWhole | LD56/CartridgeManagement/LdResourceAssets.cs:57-59 | "foo.aseprite" loses the whole extension, leaving no stray "prite", and names sheet "foo" |
| Resources.Placement | LD56/CartridgeManagement/LdResourceAssets.cs:52-74 | one entry per atlas frame, in file order, with the frame's sheet name and rectangle |
| Resources.Stepped | LD56/CartridgeManagement/LdResourceAssets.cs:69-76 | one frame creates its sheet on the atlas texture if it is new, keeps every other sheet's texture, and leaves all sheets frame-selecting |
| Resources.SteppedFrames | LD56/CartridgeManagement/LdResourceAssets.cs:74-76 | one frame appends its rectangle to its own sheet and to no other |
| Resources.GroupedSteps | LD56/CartridgeManagement/LdResourceAssets.cs:52-77 | the grouping handles the frames one after another |
| Resources.GroupingSucceeds | LD56/CartridgeManagement/LdResourceAssets.cs:52-77 | onto frame-selecting sheets every frame is added and the sheets stay frame-selecting |
| Resources.GroupingNames | LD56/CartridgeManagement/LdResourceAssets.cs:69-72 | the sheets afterwards are the earlier ones plus exactly the names some frame gives |
| Resources.GroupingCollectsFrames | LD56/CartridgeManagement/LdResourceAssets.cs:52-77 | each sheet holds its earlier frames followed by the rectangles of its own frames, in file order |
| Resources.FramesAfterStep | LD56/CartridgeManagement/LdResourceAssets.cs:74-76 | one frame's step keeps the collected frames of every sheet in file order |
| Resources.GroupingTextures | LD56/CartridgeManagement/LdResourceAssets.cs:69-72 | an existing sheet keeps its texture and every new sheet uses the atlas |
| Resources.GroupingFailsOnGeneratedSheet | LD56/CartridgeManagement/LdResourceAssets.cs:75 | a frame naming a generated sheet stops the loop and leaves the sheets as they were |
| Resources.SoundInstance.constructor | LD56/CartridgeManagement/LdResourceAssets.cs:130 | a new instance of the sound, stopped, centred, at full volume |
| Resources.SoundInstance.Stop | LD56/CartridgeManagement/LdResourceAssets.cs:140 | the instance is stopped |
| Resources.SoundInstance.Play | LD56/CartridgeManagement/LdResourceAssets.cs:148 | the instance plays, and starts over exactly when it was stopped |
| Resources.DisposeHandles | LD56/CartridgeManagement/LdResourceAssets.cs:97-102 | every value of the dictionary is disposed |
| Resources.DisposeInstances | LD56/CartridgeManagement/LdResourceAssets.cs:97-102 | every value of the dictionary is disposed |
| Resources.DisposeCanvases | LD56/CartridgeManagement/LdResourceAssets.cs:97-102 | every value of the dictionary is disposed |
| Resources.Assets.constructor | LD56/CartridgeManagement/LdResourceAssets.cs:21-38 | every dictionary starts empty |
| Resources.Assets.LoadAtlas | LD56/CartridgeManagement/LdResourceAssets.cs:44-79 | without sheet data nothing changes; otherwise the sheets become the grouping of the atlas frames by sheet name |
| Resources.Assets.AddSound | LD56/CartridgeManagement/LdResourceAssets.cs:126-132 | a new stopped instance and the sound are stored under the path, replacing any earlier pair; every other key stays |
| Resources.Assets.PlaySound | LD56/CartridgeManagement/LdResourceAssets.cs:134-154 | a known sound takes the pan, pitch, volume and loop of the settings and plays, starting over when cached or stopped; an unknown key changes nothing and yields the warning "Could not find sound `key`" |
| Resources.Assets.AddDynamicSpriteSheet | LD56/CartridgeManagement/LdResourceAssets.cs:107-124 | an old canvas under the key is disposed and replaced by a new one of the given size; the sheet is added exactly when the key is new, and otherwise the add fails and the sheets stay |
| Resources.Assets.ReplaceDynamicSpriteSheet | LD56/CartridgeManagement/LdResourceAssets.cs:107-124 | as AddDynamicSpriteSheet, but the sheet under the key is replaced |
| Resources.Assets.Unload | LD56/CartridgeManagement/LdResourceAssets.cs:90-105 | every canvas, sound and sound instance is disposed and the three dictionaries are emptied; the sheets stay |
| Resources.RedrawingASheetFails | LD56/CartridgeManagement/LdResourceAssets.cs:110-123 | drawing a sheet twice under a new key: the first add succeeds and the second fails |
| Resources.RedrawingASheetReplaces | LD56/CartridgeManagement/LdResourceAssets.cs:110-123 | with the corrected method, drawing twice keeps the latest sheet under the key |
| Resources.Registry.constructor | LD56/CartridgeManagement/LdResourceAssets.cs:19 | no instance yet |
| Resources.Registry.Instance | LD56/CartridgeManagement/LdResourceAssets.cs:23-34 | the instance is made empty on first use and the same object is returned afterwards |
| Resources.Registry.Reset | LD56/CartridgeManagement/LdResourceAssets.cs:156-160 | the instance, made now if there was none, is unloaded and forgotten |

## Left out

- **Drawing.** Every `Draw` method is left out, along with `DrawArrowHead`, painter and sprite-batch calls, colours, the circle image, the enemy's leg geometry, `Goal.AuraRadius` and `MutantSineFunction`. They only produce pixels. The model keeps only the values they read, such as the sprite draw depth.
- **Files and formats.** JSON (de)serialisation, file access, texture and Ogg decoding, and GPU canvas creation are not modelled. What they produce is passed in, and the editor's files are a map.
- **Sound files.** The sound-file loop of the resource load event (`LdResourceAssets.cs:83-86`) enumerates the repository's files, so it is not modelled. `AddSound` is modelled for a single sound.
- **Sound playback.** Sound instances are a state machine: stopped, playing or paused, with a start counter. Audio output is not modelled.
- **Exceptions.**
  - `Sheets.Add` on a key the dictionary already holds throws. The model yields `ok = false` without changing the sheets.
  - In the atlas frame loop, the cast of a generated sheet to a frame-selecting sheet would throw. The loop stops there and reports `ok = false`.
- **Input and camera.** Consumable input, the hit-test stack, the mouse-to-world conversion, scrolling, zoom and middle-button panning are not modelled. A frame of editor input is reduced to the mouse position, the buttons and the keys it uses (`Editors.InputFrame`). The creatures' steering input is their `DirectionalInput` field, which the session sets each frame (to −1, 0 or 1).
- **Editor hit tests.** The editor's hit test of each entity of its world is passed in as a list of booleans, one per entity. The hit tests themselves are modelled per entity class.
- Editors.EditorSession.DeleteUnderMouse: does not raise the destroy flag of the entity that was hit, only its level data is deleted, because the editor rebuilds its world from the level whenever it draws.
- **Floating point.**
  - Rounding and overflow are absent: reals are exact.
  - The framework's `Normalized()` of the zero vector is NaN. Here it is the zero vector, and every property that needs a direction requires non-coincident points.
  - The obstacle outline's angle loop (`ObstacleRenderer.cs:23`) accumulates a float angle. It is modelled as exactly 32 steps of π/16.
- **Frog blink.** The frog's blink tween and its wait are left out because they depend on a foreign tween library.
- **Currents.** `Current.cs` is not modelled beyond its position, radius and angle. Its particles use the random generator, and it calls the undeclared `Player.PushInDirection`.
- **Background dust.** `BackgroundDust.cs` wraps particles with the camera matrix, so it is left out.
- **Session glue.** `LdCartridge.cs`, `LdSession.cs`, `ISession.cs`, `Component.cs` and `Constants.cs` are wiring and framework interfaces and are left out. The animation constants they define appear only as two distinct animations.
- **Logging.**
  - The debug log of `SkipLevel` is not modelled.
  - The warning `InverseKinematicChain.PullTowards` logs (`Goal.cs:251`) is not modelled; the member changes nothing.
  - `PlaySound`'s warning is returned as a value.
  - The sound `PlayerDied` plays is not modelled.
- Goals.Goal.CreatePlayer: does not play the `player_spawn` sound (`Goal.cs:49`); the goal holds no reference to the resource registry, so the restart of that sound instance is not stated.
- Goals.Goal.AddFullArm: does not play the `grow_tendril` sound at pitch 1 (`Goal.cs:67`) that accompanies every feed, for the same reason.
- Sprites.DrawDepth: does not model the 32-bit wrap-around of the `(int)` cast of the height and of the subtraction from the depth (`SpriteRenderer.cs:42`); integers are unbounded, so the model differs for heights beyond 2³¹ in magnitude.
- **Depth constants.** The framework's `Depth.MaxAsInt` and `Depth.Middle` are not part of the source; `Entities.DepthMaxAsInt` (2³¹ − 1) and `Entities.DepthMiddle` (half of it) are stand-in values, and every property is stated in terms of these two names.
- **No code to model.** No source file frames the camera, sweeps entities flagged for destruction or tests a safe aura around the goal. The model invents none of them; focal weights exist only as values.
- **Inheritance.** There is no class hierarchy, because the game's entity base class is not shared:
  - components that hold an entity (sprite, frog, worm renderers, worm behaviour, worker) refer to an `Entities.Entity` object;
  - game entities (player, enemy, goal, food, worm) carry their own position.

## Findings

| source | as written | input that shows it | evidently intended | confidence | as-written member | corrected member |
|---|---|---|---|---|---|---|
| LD56/CartridgeManagement/LdResourceAssets.cs:110-123 | a dynamic sheet under a key already in use has its canvas disposed and replaced, then `Sheets.Add` fails for the same key, so the sheet is never redrawn and the new canvas is left without a sheet | two calls of `AddDynamicSpriteSheet` with the same key | the sheet is replaced together with its canvas | not executed | Resources.RedrawingASheetFails | Resources.RedrawingASheetReplaces |
