# Collaborative whiteboard core, in Dafny

This project models the logic at the centre of a collaborative whiteboard. The app is a Next.js application with a React Flow canvas. Board metadata is stored in Convex, identity comes from Clerk and real-time rooms from Liveblocks. Every module states what its source code promises and proves it. The modelled parts are:

- **Floating-edge geometry** (`EdgeGeometry`). A ray is cast from one node's centre towards the other's centre. The model finds where it leaves the node's box and which side that is.
- **Image ingestion** (`ImageUtils`):
  - the scale-down rule;
  - the ladder of fallbacks: bitmap decode, then `<img>` decode, then the raw blob at 800×600, or at the original size when there is no 2D context;
  - the once-only WebP probe, modelled as a class holding the module-level cache;
  - the off-screen canvas, modelled as a class whose fields the pipeline sets.
- **Board metadata tables** (`Boards`). A class holds the `boards` and `userFavorites` tables. Its methods are `create`, `remove`, `updateTitle`, `favorite` and `unfavorite`. The queries `get` and `getBoards` are functions over that state.
- **Roles and room access**:
  - `BoardRole` is the role decision;
  - `LiveblocksAuth` covers the room authorisation endpoint: its 401/404 decisions, the 500 for an uncaught throw, the cursor colour and the display name.
- **Node and edge components**. Each editor is a small class, and its handlers return the change message they dispatch. The messages are listed in `Messages`.
  - The edge label editor is shared by both edge kinds (`EdgeLabel`). The two kinds differ only in how they route (`FloatingEdge`, `CustomEdge`).
  - The image URL editor is `ImageNode`.
  - The rich-text sync rule is `TextNode`.
  - The plain-text editor is shared by the sticky note and the shape (`NoteText`). The pure view rules of those two are in `StickyNoteNode` and `ShapeNode`.
  - `PathNode` holds the freehand stroke serialiser and the bounding-box layout.

`JsStrings` models the JavaScript string semantics the code depends on:

- `length` and `charCodeAt` count UTF-16 code units;
- `trim` strips the ECMAScript whitespace set.

Dafny's `real` stands in for JavaScript numbers. Division by zero is represented explicitly (`EdgeGeometry.Extended`), and `Math.round` is `Floor(x + 1/2)`.

A Convex mutation runs as a transaction. The model assumes that patching or deleting a missing document throws and undoes the mutation. Such a call returns `NonexistentDocument` with both tables unchanged.

Where the code and the project's design description differ, the model follows the code:

- **Edge routing.** The design routes a floating edge between the nearest pair of side midpoints. `lib/edge-utils.ts` intersects the centre-to-centre ray with the box instead.
- **Image failures.** The design says image ingestion never fails. The code rejects when the blob cannot even be read as a data URL (`ImageUtils.RejectsOnlyWhenUnreadable`). A throw from drawing or encoding falls back to the raw blob at 800×600.
- **No 2D context.** The code returns the original dimensions when there is no 2D context, not a default guess.
- **Role gating.** The design says every mutating entry point is gated on the role. In the code only the edge label editor and the edge menu consult the role. The sticky note, shape and image editors do not. The board mutations check only that the caller is signed in, not ownership.

## Model

| member | source | states |
|---|---|---|
| EdgeGeometry.AbsQuotient | lib/edge-utils.ts:24-25 | `Math.abs(w / d)` is infinite exactly when `d` is 0; otherwise it is the positive `r` with `r·|d| = w` |
| EdgeGeometry.LessIsStrictTotal | lib/edge-utils.ts:26-35 | `<` on quotients that may be `Infinity` is a strict total order (asymmetric, transitive, total) with `Infinity` above every finite value |
| EdgeGeometry.Min | lib/edge-utils.ts:26 | `Math.min` returns one of its arguments and neither argument is below it |
| EdgeGeometry.ScaledOnRay | lib/edge-utils.ts:28-31 | a positive multiple of a non-zero direction is collinear with it and points the same way |
| EdgeGeometry.Exit | lib/edge-utils.ts:24-40 | the exit offset lies on the open ray from the centre in direction (dx, dy) |
| EdgeGeometry.Intersection | lib/edge-utils.ts:4-43 | for distinct centres the attachment point lies on the ray from the node's centre towards the target's centre |
| EdgeGeometry.GetEdgeParams | lib/edge-utils.ts:46-57 | coincident centres give both centres with Top, Top. Otherwise each end lies on its own node's boundary, on the side it reports |
| EdgeGeometry.CoincidentCenters | lib/edge-utils.ts:17-22 | coincident centres give the source centre on the Top side |
| EdgeGeometry.ExitOnBoundary | lib/edge-utils.ts:24-40 | the point centre + ratio·(dx,dy), with ratio = min(ratioX, ratioY), lies exactly on the box boundary. The side agrees with it: Right means x = cx+w, Left x = cx−w, Bottom y = cy+h, Top y = cy−h. This includes the corner tie, which goes to Top/Bottom |
| EdgeGeometry.IntersectionOnBoundary | lib/edge-utils.ts:4-42 | for distinct centres, the intersection lies on the node's boundary, on the side it reports; half-extents are width/2 and height/2 |
| EdgeGeometry.SwapEnds | lib/edge-utils.ts:46-57 | swapping source and target swaps (sx, sy, sourcePos) with (tx, ty, targetPos) |
| EdgeGeometry.ExitReversed | lib/edge-utils.ts:33-40 | reversing the ray direction gives the opposite side |
| EdgeGeometry.EqualSizesOppositeSides | lib/edge-utils.ts:46-57 | for equal-sized boxes with distinct centres, targetPos is the opposite of sourcePos |
| EdgeGeometry.SideBySideExample | lib/edge-utils.ts:4-57 | boxes of 100×100 at (0,0) and (300,0) attach at (100,50) Right and (300,50) Left |
| ImageUtils.Scale | lib/image-utils.ts:115 | the scale never exceeds 1 |
| ImageUtils.JsRound | lib/image-utils.ts:116-117 | `Math.round(x)` is the integer n with n ≤ x + 0.5 < n + 1 (halves round up) |
| ImageUtils.JsRoundMonotone | lib/image-utils.ts:116-117 | rounding keeps the order of its arguments |
| ImageUtils.ScaledSide | lib/image-utils.ts:116-117 | a scaled side is at least 1, and is the rounded product unless that is below 1 |
| ImageUtils.ScaledSideOrdered | lib/image-utils.ts:115-117 | the longer side stays at least as long after scaling |
| ImageUtils.TargetSize | lib/image-utils.ts:115-117 | both output sides are at least 1, and the landscape/portrait orientation is kept |
| ImageUtils.ScaledSideBounds | lib/image-utils.ts:116-117 | a side scaled by at most 1 is at least 1 and at most the original |
| ImageUtils.TargetSizeNeverUpscales | lib/image-utils.ts:115-117 | the output is at least 1×1 and never larger than the original in either dimension |
| ImageUtils.TargetSizeKeepsFittingImage | lib/image-utils.ts:115-117 | an image whose sides are both within the bound keeps its size |
| ImageUtils.TargetSizeWithinBound | lib/image-utils.ts:115-117 | for an integer bound ≥ 1, both output sides are at most the bound |
| ImageUtils.TargetSizeExample | lib/image-utils.ts:115-117 | 4000×2000 with bound 1800 gives 1800×900 |
| ImageUtils.DecodeBlob | lib/image-utils.ts:45-66 | a successful bitmap decode is used when available. Otherwise the decode fails exactly when the data URL or the `<img>` load fails, and succeeds with `naturalWidth \|\| width` by `naturalHeight \|\| height` when both succeed |
| ImageUtils.RawFallback | lib/image-utils.ts:108-142 | the blob read as a data URL at 800×600; the promise rejects exactly when that read fails |
| ImageUtils.ReachesEncoding | lib/image-utils.ts:106-131 | the pipeline reaches the encoder only after a decode with a positive size, a 2D context and a draw that does not throw |
| ImageUtils.OptimizeOutcome | lib/image-utils.ts:98-143 | the result is an encoded image exactly when the encoder is reached and `toDataURL` does not throw; any raw result is the blob's own data URL |
| ImageUtils.DefaultOptions | lib/image-utils.ts:102-103 | missing options mean bound 1800 and quality 0.85 |
| ImageUtils.UnknownSizeFallsBack | lib/image-utils.ts:106-112 | a failed decode, or a zero or missing width or height, gives the raw blob at 800×600 |
| ImageUtils.NoContextKeepsOriginalSize | lib/image-utils.ts:119-127 | without a 2D context the raw blob is returned with the decoded (original) size, not 800×600 |
| ImageUtils.EncodedResult | lib/image-utils.ts:129-137 | a pipeline that reaches the encoder, and whose `toDataURL` does not throw, yields WebP iff WebP is supported (else JPEG), at the requested quality, with a size between 1×1 and the decoded size |
| ImageUtils.DrawOrEncodeFailureFallsBack | lib/image-utils.ts:131-142 | a throw from `drawImage` or `toDataURL` is caught: the raw blob at 800×600 |
| ImageUtils.RejectsOnlyWhenUnreadable | lib/image-utils.ts:138-142 | the promise rejects only when the blob cannot be read as a data URL at all |
| ImageUtils.Canvas.constructor | lib/image-utils.ts:120 | a new canvas is 300×150 and blank |
| ImageUtils.Canvas.DrawImage | lib/image-utils.ts:131 | drawing records the drawn size and changes nothing else |
| ImageUtils.Canvas.ToDataUrl | lib/image-utils.ts:135 | the encoding has the canvas's width and height and the requested type and quality |
| ImageUtils.ImageOptimizer.constructor | lib/image-utils.ts:72 | the WebP cache starts empty |
| ImageUtils.ImageOptimizer.SupportsWebp | lib/image-utils.ts:72-84 | the first call stores and returns the probe's answer; later calls return the stored answer and change nothing |
| ImageUtils.ImageOptimizer.Optimize | lib/image-utils.ts:98-143 | the outcome is the pipeline's value for the cached (or freshly probed) WebP answer. The cache is filled exactly when the pipeline reaches the encoder, since the probe runs after the draw and before `toDataURL` |
| ImageUtils.ProbeIsCached | lib/image-utils.ts:72-84 | after one call reaches the encoder, a later call uses that first probe's answer whatever the probe now says |
| JsStrings.CodeUnits | app/api/liveblocks-auth/route.ts:40 | a character below U+10000 is the single code unit equal to it; any other is a high surrogate followed by a low surrogate that together encode it; every unit is below 0x10000 |
| JsStrings.Utf16Units | app/api/liveblocks-auth/route.ts:40 | a string has between \|s\| and 2\|s\| code units, each below 0x10000, and exactly \|s\| when no character needs a surrogate pair |
| JsStrings.Utf16Length | convex/boards.ts:71 | `length` is between \|s\| and 2\|s\|, and exactly \|s\| when every character is below U+10000 |
| JsStrings.IsWhitespace | convex/boards.ts:70 | among ASCII characters `trim` strips exactly tab, line feed, vertical tab, form feed, carriage return and space; every stripped character is in the Basic Multilingual Plane |
| JsStrings.LeadingWhitespace | convex/boards.ts:70 | the count of leading whitespace: all of those characters are whitespace and the next one is not |
| JsStrings.TrailingWhitespace | convex/boards.ts:70 | the count of trailing whitespace: all of those characters are whitespace and the one before is not |
| JsStrings.Trim | convex/boards.ts:70 | the result is the input without its leading and trailing whitespace: a contiguous slice, neither end whitespace, and empty iff the input is all whitespace |
| JsStrings.TrimIdempotent | convex/boards.ts:70 | trimming twice is trimming once |
| Boards.FindFavorite | convex/boards.ts:91-96 | the `by_user_board` lookup finds a record of (user, board) when there is one, and none otherwise |
| Boards.HasFavorite | convex/boards.ts:91-97 | the caller has favourited the board iff some record matches (user, board) |
| Boards.WithFavorite | convex/boards.ts:91-104 | an existing pair leaves the table as it was; otherwise the table gains exactly the record (user, board, orgId) at its end |
| Boards.WithoutFavorite | convex/boards.ts:120-129 | no record for the pair leaves the table as it was; otherwise the table is one record shorter |
| Boards.WithFavoriteAdds | convex/boards.ts:91-104 | favouriting leaves the pair present, keeps every record, adds at most the one new record, and keeps (user, board) unique |
| Boards.WithFavoriteIdempotent | convex/boards.ts:98 | favouriting twice is favouriting once, whatever orgId the second call names |
| Boards.WithoutFavoriteRemoves | convex/boards.ts:120-129 | unfavouriting removes the (user, board) record and nothing else, keeping uniqueness; when the record exists the result is the table with that one record cut out, the others in their order |
| Boards.WithoutFavoriteIdempotent | convex/boards.ts:127 | unfavouriting twice is unfavouriting once |
| Boards.FavoriteThenUnfavorite | convex/boards.ts:80-131 | favouriting a board that was not a favourite, then unfavouriting it, restores the table |
| Boards.TitleError | convex/boards.ts:70-72 | a title is refused iff its trimmed form is empty (exactly when it is all whitespace) or longer than 60 UTF-16 units |
| Boards.OrgBoardsDesc | convex/boards.ts:180-184 | the org listing holds exactly the org's boards, newest first |
| Boards.FavoriteBoardIds | convex/boards.ts:156-171 | a board is listed exactly when it exists, belongs to the org, and the caller has a favourite record for it stored under that org; the listing is no longer than the caller's records |
| Boards.ListingModeOf | convex/boards.ts:156-185 | a non-empty `favorites` selects the favourites listing; otherwise a non-empty `search` selects the search listing with that query; otherwise the org listing |
| Boards.BoardTables.constructor | convex/schema.ts:1-28 | both tables start empty and the id counter at zero |
| Boards.BoardTables.Create | convex/boards.ts:15-37 | no identity: Unauthorized and nothing changes. Otherwise one new board is inserted under the next id, which is larger than every id issued before and carries no favourite record; it is owned by the caller's subject, authored by name or "Anonymous" with picture or "", and has a placeholder image. Every other mutation leaves the id counter alone |
| Boards.BoardTables.Remove | convex/boards.ts:40-61 | no identity: Unauthorized with nothing changed. Otherwise the board and only the caller's favourite for it are deleted; a missing board rolls back |
| Boards.BoardTables.UpdateTitle | convex/boards.ts:64-77 | no identity: Unauthorized. An empty or over-long trimmed title is refused with the board unchanged. Otherwise the trimmed title is stored |
| Boards.BoardTables.AddFavorite | convex/boards.ts:80-106 | no identity: Unauthorized. A missing board gives "Board not found". Otherwise the (caller, board) record is added once, idempotently |
| Boards.BoardTables.RemoveFavorite | convex/boards.ts:109-131 | no identity: Unauthorized. A missing board gives "Board not found". Otherwise the caller's record is deleted if there is one |
| Boards.BoardTables.Get | convex/boards.ts:134-139 | the board if it exists, with no identity check |
| Boards.BoardTables.GetBoards | convex/boards.ts:142-203 | no identity: Unauthorized. Every listed board exists, is in the org, and is flagged isFavorite iff the caller has a record for it. The favourites listing is all favourites. The org listing is complete and newest first |
| Boards.BoardTables.ListedIds | convex/boards.ts:154-185 | every listed id is an existing board of the org. The favourites branch is the favourites listing, so a board is listed exactly when it is a board of the org with a record of the caller under that org; the search branch is exactly the index's hits; in the org branch every board of the org is listed, newest first |
| Boards.BoardTables.ViewsOf | convex/boards.ts:187-202 | one view per listed id, in order, with that board's fields and its isFavorite flag; every listed id has a view |
| Boards.RemoveKeepsOtherUsersFavorites | convex/boards.ts:48-59 | removing a board leaves another user's favourite record for it in place |
| Boards.CreateNeverReusesIds | convex/boards.ts:26-33 | a board created after another was created and deleted gets a larger id, so a deleted board's id is never handed out again |
| BoardRole.UseBoardRole | hooks/use-board-role.ts:21-29 | null iff loading. Viewer iff there is no board or no signed-in user. Owner iff board.ownerId equals the user id. Editor for any other signed-in user |
| BoardRole.RoleIsTotal | hooks/use-board-role.ts:25-28 | exactly one outcome; Owner needs a signed-in user; editing is allowed iff loading, or a board and a user are present |
| BoardRole.RoleIgnoresOrganisation | hooks/use-board-role.ts:26-28 | the role depends only on the owner id, not the board's organisation |
| LiveblocksAuth.ColorIndex | app/api/liveblocks-auth/route.ts:39-41 | the sum of code units mod 8 always indexes the palette |
| LiveblocksAuth.Sum | app/api/liveblocks-auth/route.ts:39-40 | the fold of non-negative code units is non-negative |
| LiveblocksAuth.SumAppend | app/api/liveblocks-auth/route.ts:39-40 | the sum of a concatenation is the sum of its parts |
| LiveblocksAuth.DisplayName | app/api/liveblocks-auth/route.ts:45-48 | "first last" when both are non-empty; otherwise the username if present (even ""); otherwise "Anonymous" |
| LiveblocksAuth.Post | app/api/liveblocks-auth/route.ts:19-59 | 401 iff there are no session claims or no user. After that, 500 iff reading the body or the board query throws (nothing catches it), and 404 iff the query finds no board. A session is prepared iff the board is found. It is a session for the user id, with its name, avatar and palette colour, and full access to the room |
| LiveblocksAuth.ColorIsDeterministic | app/api/liveblocks-auth/route.ts:38-41 | equal ids get equal palette colours |
| LiveblocksAuth.ColorExample | app/api/liveblocks-auth/route.ts:39-41 | "u1" sums to 166, index 6, colour "#EA580C" |
| PathNode.SvgPathFromStroke | components/nodes/path-node.tsx:9-21 | empty stroke gives no tokens. Otherwise M, x0, y0, Q, then for each point i: x_i, y_i and the midpoints to point (i+1) mod n, then Z |
| PathNode.LastSegmentWraps | components/nodes/path-node.tsx:13 | the last point's midpoint is taken towards the first point |
| PathNode.SeqMin | components/nodes/path-node.tsx:48-49 | the minimum is an element and no element is below it |
| PathNode.SeqMax | components/nodes/path-node.tsx:50-51 | the maximum is an element and no element is above it |
| PathNode.Shift | components/nodes/path-node.tsx:59-63 | each point moves by (padding − minX, padding − minY) and keeps its pressure |
| PathNode.PathLayout | components/nodes/path-node.tsx:37-41 | nothing is rendered iff the points are missing or empty; otherwise the colour and stroke width are the data's or the defaults |
| PathNode.LayoutOf | components/nodes/path-node.tsx:48-75 | padding is twice the stroke width, one shifted point per input point, and the container is the box plus the padding on each side |
| PathNode.LayoutBounds | components/nodes/path-node.tsx:48-75 | shifted points keep count, order and pressure, all by one common offset. Each lies in [padding, width+padding] × [padding, height+padding], at least `padding` inside a container of (width+2·padding) × (height+2·padding) |
| PathNode.LayoutTight | components/nodes/path-node.tsx:48-63 | the box is tight: width and height are exactly the spread of the points, and some shifted point lies on each of the four padded edges |
| PathNode.LayoutTouchesX | components/nodes/path-node.tsx:48-63 | width is max x − min x, and shifted points reach x = padding and x = width + padding |
| PathNode.LayoutTouchesY | components/nodes/path-node.tsx:49-63 | height is max y − min y, and shifted points reach y = padding and y = height + padding |
| PathNode.EmptyPathRendersNothing | components/nodes/path-node.tsx:37-41 | no points (missing or empty) render nothing |
| PathNode.PathDefaults | components/nodes/path-node.tsx:38-58 | the defaults are colour "#0f172a" and strokeWidth 4, so padding is 8 |
| PathNode.LayoutTranslationInvariant | components/nodes/path-node.tsx:48-63 | translating every input point by one offset leaves the layout, including the shifted points, unchanged |
| EdgeLabel.StyleOf | components/edges/floating-edge.tsx:51-54 | each of label, pathType and colour is used as given when present, and defaults on its own ("", "step", "#6366f1") when missing or when there is no data |
| EdgeLabel.StyleDefaults | components/edges/custom-edge.tsx:50-53 | no data gives "", "step", "#6366f1"; a lone pathType "bezier" keeps the other two defaults; a label and colour without pathType get "step" |
| EdgeLabel.ChoosePath | components/edges/floating-edge.tsx:140-155 | "bezier" gives bezier, "straight" gives straight, anything else gives smooth step with the edge's corner radius |
| EdgeLabel.DefaultPathIsSmoothStep | components/edges/custom-edge.tsx:52-153 | a missing path type draws a smooth step |
| EdgeLabel.StrokeWidth | components/edges/custom-edge.tsx:169 | 4 iff selected, else 2 |
| EdgeLabel.MenuOffered | components/edges/custom-edge.tsx:205 | the styling and delete menu is offered iff the role is not viewer |
| EdgeLabel.LabelEditor.constructor | components/edges/floating-edge.tsx:52-57 | the input text starts as the stored label, closed |
| EdgeLabel.LabelEditor.ReceiveData | components/edges/floating-edge.tsx:60-62 | a changed stored label overwrites the input text, even mid-edit; an unchanged one leaves it |
| EdgeLabel.LabelEditor.DoubleClick | components/edges/floating-edge.tsx:71-77 | opens the input iff the role is not viewer (a loading role may edit) |
| EdgeLabel.LabelEditor.FormatLabel | components/edges/floating-edge.tsx:206-208 | the menu item opens the input |
| EdgeLabel.LabelEditor.Input | components/edges/floating-edge.tsx:189 | typing replaces the input text only |
| EdgeLabel.LabelEditor.FinishEditing | components/edges/floating-edge.tsx:79-88 | emits exactly one edgeDataChange {label: input text} for this edge iff the input was open, and closes it (same code at custom-edge.tsx:78-87) |
| EdgeLabel.LabelEditor.KeyDown | components/edges/floating-edge.tsx:90-99 | Enter and Escape both commit the typed label; other keys change nothing |
| EdgeLabel.LabelEditor.UpdatePathType | components/edges/floating-edge.tsx:101-110 | the message carries only the path type, for this edge |
| EdgeLabel.LabelEditor.DeleteEdge | components/edges/floating-edge.tsx:112-118 | edgeDelete names only this edge |
| EdgeLabel.LabelEditor.LabelBoxShown | components/edges/custom-edge.tsx:177 | the label box is hidden iff the stored label is empty and the input is closed |
| EdgeLabel.ViewerCannotRelabel | components/edges/custom-edge.tsx:70-98 | a viewer's double-click, typing and Enter send nothing |
| EdgeLabel.EscapeCommitsOnce | components/edges/custom-edge.tsx:78-98 | Escape commits the typed label once; a second commit sends nothing |
| FloatingEdge.RouteOf | components/edges/floating-edge.tsx:120-155 | nothing is drawn iff an endpoint node is missing. Otherwise the ends are `getEdgeParams`'s and the generator is the path type's, with radius 16 |
| FloatingEdge.EndsOnBorders | components/edges/floating-edge.tsx:125 | for distinct centres each end lies on its own node's border, on the side it reports |
| FloatingEdge.DefaultFloatingShape | components/edges/floating-edge.tsx:150-155 | without a path type the edge is a smooth step with 16 px corners |
| CustomEdge.RouteOf | components/edges/custom-edge.tsx:123-153 | the handle coordinates and sides pass through unchanged; the generator is the path type's, without a corner radius |
| CustomEdge.SameGeneratorAsFloating | components/edges/custom-edge.tsx:137-153 | both edges pick the same generator for every path type and differ only in the smooth-step radius |
| ImageNode.ChangeUrlButtonNeverOverImage | components/nodes/image-node.tsx:56-68 | as written, the "Change URL" button only appears inside the input view, never over an image (url "a.png", input closed: no button) |
| ImageNode.ChangeUrlButtonWithImage | components/nodes/image-node.tsx:56 | corrected, the button is offered exactly when the image or its error view is on display |
| ImageNode.InputView | components/nodes/image-node.tsx:68 | an open input always shows the input view; the image view needs a non-empty URL and a closed input |
| ImageNode.ChangeUrlButtonAsWritten | components/nodes/image-node.tsx:56 | as written, the button needs an empty URL and a closed input |
| ImageNode.ChangeUrlButton | components/nodes/image-node.tsx:56 | corrected, the button needs a URL and a closed input |
| ImageNode.ImageEditor.constructor | components/nodes/image-node.tsx:19-22 | url and inputUrl start as data.url or ""; editing starts iff data.url is missing or empty |
| ImageNode.ImageEditor.Input | components/nodes/image-node.tsx:78 | typing replaces only the input text |
| ImageNode.ImageEditor.Apply | components/nodes/image-node.tsx:24-33 | url becomes the trimmed input, the error clears, editing ends, and nodeDataChange {url: trimmed input} is emitted |
| ImageNode.ImageEditor.KeyDown | components/nodes/image-node.tsx:35-39 | Enter applies; Escape closes the input without changing url or emitting; other keys change nothing |
| ImageNode.ImageEditor.Cancel | components/nodes/image-node.tsx:90-97 | Cancel closes the input and changes nothing else |
| ImageNode.ImageEditor.ImageFailed | components/nodes/image-node.tsx:119 | a load error sets the error flag only |
| ImageNode.ImageEditor.EditUrl | components/nodes/image-node.tsx:108 | "Edit URL" reopens the input and clears the error; url is unchanged |
| ImageNode.ImageEditor.ChangeUrl | components/nodes/image-node.tsx:58 | the button opens the input |
| ImageNode.ImageEditor.InputShown | components/nodes/image-node.tsx:68 | when the input view is hidden, a URL is set |
| ImageNode.ImageEditor.CancelOffered | components/nodes/image-node.tsx:90-97 | Cancel appears only inside an open input, and never together with the "Change URL" button |
| ImageNode.ImageEditor.ChangeUrlOffered | components/nodes/image-node.tsx:56 | (corrected) the button shows iff the input view is hidden |
| ImageNode.ImageEditor.ErrorShown | components/nodes/image-node.tsx:103-113 | the error view appears only after a load error, with a URL set and the input closed; (corrected) the "Change URL" button is then offered, whereas as written at line 56 it never shows beside the error view |
| ImageNode.BlankApplyShowsInput | components/nodes/image-node.tsx:24-68 | applying a blank input sends url "" and shows the input view again |
| ImageNode.TrimThenEscape | components/nodes/image-node.tsx:24-39 | padded input is trimmed before it is sent. Escape after a later edit keeps the applied url and sends nothing |
| TextNode.Paragraph | components/nodes/text-node.tsx:25 | the text wrapped in `<p>` … `</p>` |
| TextNode.InitialContent | components/nodes/text-node.tsx:25 | html if defined (even ""); else the text as a paragraph if non-empty; else the placeholder |
| TextNode.ExternalContent | components/nodes/text-node.tsx:58 | html if defined (even "", and even if it equals the placeholder text); else the text as a paragraph if non-empty; else "". Any non-empty offer equals the initial content |
| TextNode.ExternalContentEmpty | components/nodes/text-node.tsx:58-59 | the offered content is empty iff html is "", or html is missing and the text is missing or empty |
| TextNode.Synced | components/nodes/text-node.tsx:57-61 | focused: unchanged. Otherwise any change is to the non-empty offered content, and non-empty offered content is always taken |
| TextNode.SyncIdempotent | components/nodes/text-node.tsx:59-60 | syncing again with the same data changes nothing |
| TextNode.EmptyDataKeepsContent | components/nodes/text-node.tsx:58-61 | empty data never clears the editor |
| TextNode.MountSyncIsNoOp | components/nodes/text-node.tsx:25-62 | the effect's first run, with the data the editor was created from, changes nothing |
| TextNode.TextEditor.constructor | components/nodes/text-node.tsx:22-37 | unfocused, with the initial content |
| TextNode.TextEditor.Focus | components/nodes/text-node.tsx:43 | focus sets the flag only |
| TextNode.TextEditor.Edit | components/nodes/text-node.tsx:99 | the user's edit replaces the content |
| TextNode.TextEditor.Blur | components/nodes/text-node.tsx:44-52 | blur clears focus and emits nodeDataChange with both the editor's HTML and its plain text |
| TextNode.TextEditor.SyncExternal | components/nodes/text-node.tsx:56-62 | a render with the same `html` and `text` as the effect's last run changes nothing. Otherwise the data is recorded as seen and the content becomes `Synced(focused, content, data)`. Focus is unchanged |
| TextNode.TextEditor.ToolbarShown | components/nodes/text-node.tsx:85 | the toolbar is shown iff the editor has focus |
| TextNode.RemoteEditWhileFocused | components/nodes/text-node.tsx:56-62 | remote text reaches an unfocused editor as a paragraph; a focused editor keeps the user's edit |
| TextNode.RemoteEditLostAfterBlur | components/nodes/text-node.tsx:43-62 | a remote edit that arrives while focused is never applied. The blur stores the local HTML, and a later render with the same data keeps it. Applied to an unfocused editor, the same data would give the remote paragraph |
| NoteText.NoteEditor.constructor | components/nodes/sticky-note-node.tsx:28-29 | local text is data.text or "", closed (same at shape-node.tsx:25-26) |
| NoteText.NoteEditor.ReceiveText | components/nodes/sticky-note-node.tsx:33-35 | a changed data.text resets the local text to it (or ""), even mid-edit (same at shape-node.tsx:32-34) |
| NoteText.NoteEditor.DoubleClick | components/nodes/sticky-note-node.tsx:44-46 | double-click opens the textarea for any role (same at shape-node.tsx:43) |
| NoteText.NoteEditor.Input | components/nodes/sticky-note-node.tsx:99 | typing replaces the local text only |
| NoteText.NoteEditor.Blur | components/nodes/sticky-note-node.tsx:48-55 | blur closes the textarea and emits nodeDataChange {text: local text} (same at shape-node.tsx:45-52) |
| NoteText.NoteEditor.KeyDown | components/nodes/sticky-note-node.tsx:57-65 | Escape closes without emitting; other keys change nothing (same at shape-node.tsx:54-60) |
| NoteText.RemoteChangeOverwritesDraft | components/nodes/sticky-note-node.tsx:33-55 | a remote change replaces the draft, and blur then commits the remote text |
| StickyNoteNode.ColorOf | components/nodes/sticky-note-node.tsx:15-31 | a missing colour is yellow; a colour is found iff the name is one of the four |
| StickyNoteNode.ColorNamesRoundTrip | components/nodes/sticky-note-node.tsx:15-20 | every colour has exactly one name in the table |
| StickyNoteNode.PlaceholderMojibake | components/nodes/sticky-note-node.tsx:114 | the placeholder's tail is the UTF-8 bytes of "…" read as Windows-1252, so it differs from the intended text |
| StickyNoteNode.ViewOf | components/nodes/sticky-note-node.tsx:111-115 | non-empty text renders as markdown of that text; empty text shows the (corrected) placeholder |
| ShapeNode.RenderShape | components/nodes/shape-node.tsx:63-118 | each of the four names gives its shape; any other name gives none |
| ShapeNode.ShapeTypeOf | components/nodes/shape-node.tsx:29 | a stored type is used as given; a missing one is "rectangle", which renders a rectangle |
| ShapeNode.FillOf | components/nodes/shape-node.tsx:30 | a stored colour is used as given; a missing one is "#fff" |
| ShapeNode.ViewBox | components/nodes/shape-node.tsx:140 | viewBox "0 0 100 100" iff the type is triangle or diamond |
| ShapeNode.StrokeOf | components/nodes/shape-node.tsx:72 | "#3b82f6" iff selected, else "#0f172a" |
| ShapeNode.ShapeDefaults | components/nodes/shape-node.tsx:29-30 | a missing type is a rectangle without viewBox; a missing colour is "#fff"; stored values are kept |
| ShapeNode.ViewBoxForPolygons | components/nodes/shape-node.tsx:140 | the viewBox is set exactly for the polygon shapes |
| ShapeNode.LabelOf | components/nodes/shape-node.tsx:159 | non-empty text is shown; empty text shows an invisible placeholder |

## Left out

- `EdgeGeometry`:
  - nodes of zero or unknown size are excluded by `HasSize`. For them the source attaches the edge at the node's centre (a zero half-extent over a non-zero delta gives ratio 0), or at NaN when a zero half-extent meets a zero delta on the same axis (0/0). `AbsQuotient` models only a positive numerator;
  - floating-point rounding is not modelled, because `real` is exact.
- The xyflow path generators (`getBezierPath`, `getStraightPath`, `getSmoothStepPath`) are opaque. The model records which one is called and with what radius, not the SVG path they produce.
- The perfect-freehand `getStroke` outline is an input to `PathNode.SvgPathFromStroke`. `PathNode.SvgPathFromStroke` returns the token list; joining it with spaces and JavaScript's number-to-string formatting are not modelled.
- Browser I/O of the image pipeline is an input (`ImageUtils.BrowserEnv`), fixed for one call:
  - `createImageBitmap`;
  - the FileReader, assumed to give the same outcome each time it reads the same blob;
  - the `<img>` decode and the 2D context;
  - whether `drawImage` or `toDataURL` throws, as two flags; the pixels they produce are not modelled.
- `ImageUtils.ImageOptimizer.SupportsWebp`: a probe that throws is folded into a `false` probe result.
- `Boards`:
  - the full-text search branch of `getBoards` takes the index's hits as a parameter, required to be boards of the org, because search semantics belong to the store;
  - `Math.random`'s placeholder choice is a nondeterministic pick;
  - Convex document ids are opaque strings, and `order("desc")` sorts by creation time. The model issues ids from a counter, so id order is creation order; it does not model ids as strings.
- `Boards.BoardTables.GetBoards`: the favourites listing is stated as an exact membership condition; its order (the `by_user` index order) is given only by the definition of `FavoriteBoardIds`. The order of the search listing is the index's.
- The transactional rollback of a Convex mutation is an assumption about the store, modelled as `NonexistentDocument` with the tables unchanged.
- `LiveblocksAuth.Post`:
  - the Clerk calls, the request body, the Convex query and the Liveblocks session service are inputs or outputs;
  - the body read and the board query are one input (`Lookup`); the model does not say which of them threw, and the 500 stands for the framework's reply to an uncaught exception;
  - `session.authorize()` and its HTTP reply are not modelled.
- Tiptap:
  - `TextNode.TextEditor` takes `getHTML()` to return the content last set or typed, without tiptap's HTML normalisation;
  - `getText()` is a parameter of `Blur`;
  - the effect's dependency list is modelled as `seenData`; the `editor` dependency changes only at creation, and that run changes nothing (`TextNode.MountSyncIsNoOp`);
  - the rich-text toolbar's commands are not modelled.
- `NoteText.NoteEditor.KeyDown`: any blur the browser fires when Escape removes the focused textarea is not modelled.
- Not modelled, because their code lives outside these files:
  - the receiver of the change messages: node and edge collections, delete cascade, duplicate, z-order, connecting;
  - the toolbar's tool state machine.
- Not modelled, because they carry no logic beyond layout:
  - JSX, CSS classes, focus and selection effects, event propagation and resize handles;
  - the react-markdown rendering, the Radix menus, toasts and theme.
- `JsStrings`: a Dafny `char` is a Unicode scalar value, so a JavaScript string that holds a lone surrogate cannot be represented; `Utf16Units`, `Utf16Length` and `Trim` are modelled for well-formed strings only.

## Findings

| source | as written | input that shows it | evidently intended | confidence | as-written member | corrected member |
|---|---|---|---|---|---|---|
| components/nodes/image-node.tsx:56 | the "Change URL" button renders when `!url && !isEditing`, a state in which the input view is already showing | url "a.png", input closed: the image is displayed and there is no button. A working image's URL can then never be changed, since "Edit URL" appears only after a load error | show the button over a displayed image (`url && !isEditing`) | medium, not executed | ImageNode.ChangeUrlButtonNeverOverImage | ImageNode.ChangeUrlButtonWithImage |
| components/nodes/sticky-note-node.tsx:114 | the empty-note placeholder is "Double-click to editâ€¦" | any sticky note with empty text | "Double-click to edit…", the UTF-8 ellipsis (E2 80 A6) having been read back as Windows-1252 | high, not executed | StickyNoteNode.PlaceholderMojibake | StickyNoteNode.ViewOf |
