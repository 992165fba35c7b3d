# AI actions: forward-target selection and the look-at command

This project models the decision logic of the AI action object of the combat
plugin (`AiActions` in `aiActions.ts`):

- **Forward-target selection** (`setForwardActorAsTarget`). The candidates are
  the entities near the actor with the actor's own id removed, followed by every
  online player. The first candidate that passes a filter chain becomes the
  actor's target. The chain is: position resolvable, same dimension, players no
  farther than `length`, and a strictly positive facing product. The call
  returns `false` (no actor, or no match), `undefined` (the actor's position
  cannot be resolved) or `true` (a target was set).
- **The look-at command** (`lookAtNearest`). This is the console command that
  turns the actor towards the nearest entity within a radius, optionally
  restricted to a list of families.

Modules:

- `ForwardTarget` (forward_target.dfy): candidate records, the filter chain
  (`Accepts`), the candidate list (`Candidates`), the first-match search
  (`FirstAccepted`) and the whole decision (`Select`), with lemmas on it.
- `LookAt` (look_at.dfy): the command string, the comma join of the
  `family=<t>` terms, the decimal rendering of the radius, and lemmas on them.
  `Split` and `DecimalValue` are reference inverses of the join and of the
  number rendering.
- `AiActions` (ai_actions.dfy): the class `Agent`. It holds the actor handle
  and the target relation. Its methods update the target as the source does.
- `Wrappers` (wrappers.dfy): `Option`.

Host queries become inputs. These are the nearby-entity query, the online-player
list, the actor's position and each candidate's position, player flag, distance
to the actor and yaw direction vector. Coordinates are `real`.

The method's name and its doc comment (aiActions.ts:47-48) speak of the
entity in front of the actor. The code (aiActions.ts:80-86) instead takes the
candidate's own yaw and the displacement from the candidate to the actor. So it
accepts candidates that face the actor, wherever they stand. The model follows
the code, and `ForwardTarget.FacingScenario` shows the difference on concrete
positions.

## Model

| member | source | states |
|---|---|---|
| ForwardTarget.Others | files/plugins/Components/combat/basic/core/ai/aiActions.ts:64 | the nearby list keeps exactly the entities whose id differs from the actor's, and never grows (query order is stated by `FirstInQueryOrder`) |
| ForwardTarget.Candidates | files/plugins/Components/combat/basic/core/ai/aiActions.ts:64 | the candidate list: the filtered nearby entities, then every online player, unfiltered |
| ForwardTarget.Facing | files/plugins/Components/combat/basic/core/ai/aiActions.ts:80-86 | the dot product of the displacement from the candidate to the actor in the x/z plane with the direction vector of the candidate's own yaw |
| ForwardTarget.Accepts | files/plugins/Components/combat/basic/core/ai/aiActions.ts:66-87 | the filter chain of the `find` predicate: position resolvable, same dimension, a player no farther than `length`, facing product strictly positive |
| ForwardTarget.FirstInQueryOrder | files/plugins/Components/combat/basic/core/ai/aiActions.ts:64-65 | the first entity of the raw nearby query that is not the actor and passes the filters is the one chosen, whatever the players are; so the id filter keeps query order |
| ForwardTarget.FirstAccepted | files/plugins/Components/combat/basic/core/ai/aiActions.ts:65-89 | the result is the index of a candidate passing the filters with every earlier candidate rejected; `None` only when every candidate is rejected |
| ForwardTarget.Select | files/plugins/Components/combat/basic/core/ai/aiActions.ts:52-98 | empty actor iff the actor is empty; unresolved iff the actor is present and its position is not; a chosen target has a position, is in the actor's dimension, is within `length` if it is a player, has a strictly positive facing product, and no candidate before it passes; no match means no candidate passes |
| ForwardTarget.SameSpotRejected | files/plugins/Components/combat/basic/core/ai/aiActions.ts:80-86 | a candidate at the subject's own position has facing product 0 and is rejected by the strict test |
| ForwardTarget.SubjectNeverSelectsItself | files/plugins/Components/combat/basic/core/ai/aiActions.ts:64-86 | the chosen target's id is never the actor's own. This holds even though the player list is not filtered by id, when that list reports the actor at its own position |
| ForwardTarget.FirstWins | files/plugins/Components/combat/basic/core/ai/aiActions.ts:64-65 | the first candidate in list order that passes the filters is the one chosen, whatever follows it; there is no ranking |
| ForwardTarget.NearbyBeforePlayers | files/plugins/Components/combat/basic/core/ai/aiActions.ts:64-65 | when some nearby entity other than the actor passes, the choice is a nearby entity, never a player from the appended list |
| ForwardTarget.UnresolvedCandidateNeverSelected | files/plugins/Components/combat/basic/core/ai/aiActions.ts:66-68 | a candidate whose position cannot be resolved is never chosen |
| ForwardTarget.OtherDimensionNeverSelected | files/plugins/Components/combat/basic/core/ai/aiActions.ts:70-72 | a candidate in another dimension is never chosen |
| ForwardTarget.FarPlayerNeverSelected | files/plugins/Components/combat/basic/core/ai/aiActions.ts:74-78 | a player farther than `length` is never chosen |
| ForwardTarget.NotFacingNeverSelected | files/plugins/Components/combat/basic/core/ai/aiActions.ts:80-86 | a candidate whose facing product is 0 or negative is never chosen |
| ForwardTarget.NonPlayerDistanceIgnored | files/plugins/Components/combat/basic/core/ai/aiActions.ts:74-78 | a non-player at the head of the nearby list that passes dimension and facing is chosen at any reported distance |
| ForwardTarget.FacingScenario | files/plugins/Components/combat/basic/core/ai/aiActions.ts:80-86 | with the actor at the origin: a candidate at +5 on x looking at it is chosen, the same candidate looking away is not, and a candidate at -5 on x looking at it is chosen |
| ForwardTarget.FarPlayerScenario | files/plugins/Components/combat/basic/core/ai/aiActions.ts:74-78 | a player at distance 9 facing the actor is rejected at the default length 8, even when the nearby query also returned it |
| AiActions.ReturnOf | files/plugins/Components/combat/basic/core/ai/aiActions.ts:53-61 | the value returned for each outcome: `false` for an empty actor or no match, `undefined` for an unresolved actor position, `true` for a match (also lines 91-97) |
| AiActions.Agent.SetTarget | files/plugins/Components/combat/basic/core/ai/aiActions.ts:19-24 | the target is overwritten with the given actor when the handle is present; otherwise it is unchanged |
| AiActions.Agent.RemoveTarget | files/plugins/Components/combat/basic/core/ai/aiActions.ts:30-32 | the target is cleared when the handle is present; otherwise it is unchanged |
| AiActions.Agent.SetForwardActorAsTarget | files/plugins/Components/combat/basic/core/ai/aiActions.ts:52-98 | returns `true` exactly when the selection finds a match, and then the target is that candidate's id; returns `undefined` exactly when the actor is present and its position is not; otherwise returns `false`; the target is untouched unless `true` is returned, and the actor handle never changes |
| AiActions.Agent.LookAtNearest | files/plugins/Components/combat/basic/core/ai/aiActions.ts:39-45 | no command without an actor; otherwise the command starts with the selector and radius head, then adds `,` and the family terms only for a non-empty family list, then closes with `]` |
| LookAt.FamilyTerms | files/plugins/Components/combat/basic/core/ai/aiActions.ts:42 | one `family=<t>` term per family entry, in order |
| LookAt.FamilyFilter | files/plugins/Components/combat/basic/core/ai/aiActions.ts:42 | the family terms joined with `,` |
| LookAt.Head | files/plugins/Components/combat/basic/core/ai/aiActions.ts:43 | the command text up to the radius: `execute at <sel> as <sel> run tp @s ~~~ facing @e[c=1,r=<radius>` |
| LookAt.Command | files/plugins/Components/combat/basic/core/ai/aiActions.ts:43 | the head, then `,` and the family segment only when that segment is non-empty, then `]` |
| LookAt.Join | files/plugins/Components/combat/basic/core/ai/aiActions.ts:42 | joining no terms gives the empty string; otherwise the result starts with the first term |
| LookAt.Decimal | files/plugins/Components/combat/basic/core/ai/aiActions.ts:43 | the radius is written as a non-empty string of decimal digits without a leading zero |
| LookAt.DecimalRoundTrip | files/plugins/Components/combat/basic/core/ai/aiActions.ts:43 | reading the written radius back as a decimal number gives the radius |
| LookAt.FamilyFilterEmptyIff | files/plugins/Components/combat/basic/core/ai/aiActions.ts:42-43 | the joined family segment is empty exactly when the family list is empty, so the code's string test is a list-emptiness test |
| LookAt.CommandShape | files/plugins/Components/combat/basic/core/ai/aiActions.ts:43 | with no family the command is the head and `]`, with no `,family=` and no trailing comma; otherwise it is the head, `,`, the joined terms and `]` |
| LookAt.SplitJoin | files/plugins/Components/combat/basic/core/ai/aiActions.ts:42 | splitting a join of a non-empty list of separator-free strings on the separator gives the list back |
| LookAt.FamilyFilterTerms | files/plugins/Components/combat/basic/core/ai/aiActions.ts:42 | the family segment splits on `,` into exactly one `family=<t>` term per entry, in order, when no entry holds a comma |
| LookAt.DefaultCommand | files/plugins/Components/combat/basic/core/ai/aiActions.ts:39-43 | with radius 10 and family `mob` (the defaults), the command ends in `@e[c=1,r=10,family=mob]` |

## Left out

- The host queries are inputs, not behaviour: the entities within `length` of the actor, the online players, an actor's position and player flag, `distanceTo`, and the yaw-to-vector conversion. The model does not check that the nearby list really lies within `length`, or that `dir` is a unit vector for the candidate's yaw.
- The target relation is one `Option` field. The target-lock component, the status registry and the component attach/detach calls behind it are not part of this model. A missing status record, which makes the source's attach a no-op, is not modelled.
- Floating-point arithmetic: coordinates, distances and the facing product are exact reals. Rounding and NaN are not modelled.
- The command execution (`mc.runcmdEx`) and the selector builder (`actorSelector`) are not part of this model. The selector string is a parameter, and `LookAtNearest` returns the command instead of running it.
- LookAt.Decimal: the radius is a natural number. The source accepts any number, and the text JavaScript writes for fractional, negative or very large numbers is not modelled.
- LookAt.Command: takes the radius as a natural number, for the reason given on the line above.
- AiActions.Agent.LookAtNearest: takes the radius as a natural number, for the same reason.
- Default arguments (`length = 8`, `radius = 10`, `family = ['mob']`) are the constants `DefaultLength`, `DefaultRadius` and `DefaultFamily`; callers pass them explicitly.
- `triggerDefinedEvent` is not modelled. It is a one-line command template with no decision logic.
- The inherited input-simulator state is reduced to the actor handle (`Agent.actor`).
- The perspective switching in camera.js is not part of this model. It belongs to a separate behaviour-pack script, not to the AI action object.
