# Vote casting in a discussion board

This project models the `vote` route of a Reddit-style discussion board
(`src/routes/misc.ts`). A signed-in user gives a post, or one of its comments,
an opinion of -1, 0 or +1. The route validates the value and finds the post and
the optional comment. It then looks up the user's existing vote on that one
target and does exactly one thing: fail, create the vote, delete it, update it,
or nothing. Finally it reloads the post and marks the post and each of its
comments with the acting user's own vote.

The model also covers the client's toggle-off rule
(`client/src/components/PostCard.tsx`, line 46). Pressing the button for the
vote the user already has sends 0, which retracts the vote.

Files:

- `wrappers.dfy`: `Option` and `Result`.
- `votes.dfy` (module `Votes`): the vote rows as a map from (user, target) to a
  value, the user's own vote, the score, and the pure create/delete/update/no-op
  transition `Cast` with its properties.
- `post_card.dfy` (module `PostCard`): the client's normalisation and what a
  button press does to the rows.
- `misc_routes.dfy` (module `MiscRoutes`): target resolution, the whole
  request as a function (`Step`), and the class `Store` whose `CastVote`
  method follows the handler step by step.

Notes on the handler:

- A missing post or comment makes `findOneOrFail` throw. The handler catches
  this and answers with the generic "Something went wrong" failure, not a
  "not found" error. The model reports `ServerError(PostMissing)` or
  `ServerError(CommentMissing)`.
- The comment is found by its identifier alone (`misc.ts:28`). It is not
  checked to belong to the post named in the request.
- `if (commentIdentifier)` is a truthiness test. An empty comment identifier
  therefore means a vote on the post (`HasComment`).
- The toggle-off rule lives only in the client. The server treats a repeated
  value as "nothing to change" (`misc.ts:46`), not as a retraction.

## Model

| member | source | states |
|---|---|---|
| Votes.UserVote | src/routes/misc.ts:57-58 | the user's own vote on a target is the stored value when a row exists and 0 otherwise; on rows free of zeros it is -1, 0 or 1, and 0 exactly when the user has no vote there |
| Votes.Cast | src/routes/misc.ts:35-50 | fails with "vote not found" exactly when there is no vote and the value is 0; otherwise only the one (user, target) row changes, the user's own vote becomes the requested value, a stored 0 never appears, an update keeps the key set, a create adds just the key, a delete removes just the key, and an equal value leaves the rows as they were |
| Votes.ScoreInsert | src/routes/misc.ts:38-42 | creating a vote moves its target's score by the vote's value and leaves every other target's score alone |
| Votes.ScoreRemove | src/routes/misc.ts:43-45 | removing a vote takes its value back out of its target's score |
| Votes.ScoreAfterCast | src/routes/misc.ts:35-50 | after any successful transition the voted target's score changes by the new own vote minus the old one, and no other score changes |
| Votes.ViewerIsolation | src/routes/misc.ts:57-58 | a vote by one user never changes the own vote another user sees on any target |
| PostCard.Normalize | client/src/components/PostCard.tsx:46 | the sent value is 0 exactly when the pressed value is 0 or equals the current own vote, and otherwise the pressed value |
| PostCard.PressButton | client/src/components/PostCard.tsx:43-53 | when the client shows the stored own vote, a button press never reaches the "vote not found" failure |
| PostCard.Press | client/src/components/PostCard.tsx:43-53 | when the client shows the stored own vote, a button press keeps the rows well formed, changes only the presser's row on that target, and leaves the own vote at the pressed value, or 0 if it repeated the current vote |
| PostCard.PressTwiceRestores | client/src/components/PostCard.tsx:46 | when the client shows the stored own vote, pressing the same button twice from no vote leaves the rows exactly as they were |
| Votes.SingleVoterScenario | src/routes/misc.ts:35-50 | one voter with no prior vote sending 1, 0, -1, 1 (up, up, down, up after the client's toggle-off) gets scores +1, 0, -1, +1 relative to the start and own votes 1, 0, -1, 1, with one row at the end |
| MiscRoutes.Resolve | src/routes/misc.ts:22-28 | the post must match identifier and slug, else it is missing; with a truthy comment identifier the target is that comment if it exists, else the comment is missing; without one the target is the post |
| MiscRoutes.Step | src/routes/misc.ts:12-50 | an invalid value fails before any lookup; a missing post fails; a truthy comment identifier naming no comment fails exactly then; a request fails exactly when the value is invalid, the target is missing, or the value is 0 with no vote; "vote not found" exactly when the value is 0, the target resolves and the user has no vote on it; on success only the (user, comment) row, or the (user, post) row when no comment is named, changes, and the user's own vote there is the value |
| MiscRoutes.Store.LoadComments | src/routes/misc.ts:52-55 | the reloaded post's comments are exactly the post's comments, each once |
| MiscRoutes.Store.AnnotateComments | src/routes/misc.ts:58 | each comment carries the acting user's own vote on it |
| MiscRoutes.Store.CastVote | src/routes/misc.ts:12-65 | the new vote rows are those `Step` gives; a failure leaves them unchanged; success returns the post and every one of its comments, once each, with the acting user's own votes; the rows stay free of zeros |

## Left out

- `topSubs` (`misc.ts:67-87`): a SQL aggregate query over subs and posts, with no vote logic.
- HTTP plumbing: the request body, status codes 400/404/500, JSON responses and `console.log`. They are modelled as the `Failure` datatype.
- Persistence: `findOneOrFail`, `findOne`, `save` and `remove` become map lookups and updates on `Store`. Failures of the database itself are not modelled.
- The reload of the post (`misc.ts:52-55`) is not modelled as able to fail. Posts do not change during a request in this model.
- The entity getters `setUserVote` and `voteScore` are not part of this model. `UserVote` and `Score` (up-votes minus down-votes) are this model's own definitions.
- The response holds only the identifiers and own votes. Titles, bodies, subs, scores and other eagerly loaded fields are not modelled.
- Request values that are not integers (strings, fractions, null) are not modelled. The handler rejects them with the same check as other invalid values.
- Stale client views are not modelled. The client lemmas assume the own vote the client shows is the stored one. The client reloads only when a `revalidate` callback is given (`PostCard.tsx:55`). Otherwise a second press can send 0 for a vote that is already gone, and the server answers "vote not found".
- The client's redirect to the login page, its network call and its re-render are not modelled, only its toggle-off rule.
- Concurrency between requests is not modelled. Each request runs alone here, so two simultaneous first votes by one user cannot both insert.
