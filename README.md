# Manga translator: bubble re-typesetting

This project models the one piece of real logic in the manga translation
server. For every speech bubble that the translation service returns as a
`{page_number, text, box_2d}` item, the `/api/translate` handler of
`server/index.js` does three things:

- it maps the normalised box (0..1000, origin top left, y down) onto the page
  (origin bottom left, y up);
- it wraps the Persian text greedily with `wrapText`;
- it draws a white bordered patch and then one centred text line per wrapped
  line.

The model consists of four modules:

- `Common` (`common.dfy`): `Option` stands for JSON fields that may be
  missing; `Result` stands for a request that may throw.
- `Tokens` (`tokens.dfy`): JavaScript's `split(' ')` and `join(' ')` on
  strings. `Split` is proved to be the inverse of `Join` for parts without
  spaces.
- `Wrap` (`wrap.dfy`): `wrapText`. The method `WrapText` keeps the source's
  loop, with `currentLine` and the `lines` list. It is proved equal to the
  function `WrapLines`, which states the greedy fill as groups of tokens.
  Lemmas about `WrapLines` give the placeholder, the line count, the
  round trip, token preservation, the width bound and greedy maximality.
- `Layout` and `LayoutFacts` (`layout.dfy`): the loop over the translation
  list. `Translate` keeps the source's `for` loop and its `continue` guards.
  `DrawPatch` keeps the source's box arithmetic. `FitText` keeps the minimum
  width and the call to `wrapText`. `EmitPatch` keeps the rectangle, and
  `DrawLines` keeps the inner loop, which lowers `currentTextY` by the line
  height. Each is proved equal to a function (`Instructions`, `Patch`,
  `PatchLines`, `PatchAt`, `TextRuns`). Lemmas about those functions state the
  skip rule, the exact geometry, the text placement and centring, and that
  there is one patch per drawn item.

Drawing calls are emitted as instruction records: `Rect(page, x, y, width,
height)` and `Text(page, line, x, y, size)`. The font metric
`font.widthOfTextAtSize` is a parameter `m: (string, real) -> real`, and no
property of it is assumed. Page sizes are an input list. Coordinates are
`real`.

JavaScript truthiness is modelled explicitly:

- `text` is `Option<string>`. `None` (null or undefined) and `""` are falsy.
- `page_number` is `Option<int>`. `None` and `0` are falsy.
- `box_2d` is `Option<Box>`.

A negative `page_number` passes both guards, because only the upper bound is
checked at `server/index.js:118`. `pages[pageIndex]` is then undefined, and
`getSize()` throws, so the whole request fails. The model returns
`Err(PageMissing(pageIndex))` for the whole list in that case, and the first
such item decides.

What the handler does not do, as written:

- It does not fit the font size to the box: the size is the constant 10.
- It does not avoid collisions: no list of placed patches is kept.
- It does not centre the text vertically: the first baseline is a fixed 10
  below `newBoxY`.
- It splits on the single space character, not on general whitespace.
  Doubled spaces therefore give empty tokens, and those are kept.
- It does not skip an item whose page number is negative: such an item makes
  the request fail.

## Model

| member | source | states |
|---|---|---|
| `Tokens.Split` | server/index.js:44 | `text.split(' ')` yields at least one token, no token contains a space, and joining the tokens with single spaces gives back the text |
| `Tokens.SplitJoin` | server/index.js:44 | splitting the single-space join of one or more space-free tokens gives exactly those tokens back (split is the inverse of join) |
| `Tokens.JoinConcat` | server/index.js:52 | joining two non-empty token lists is joining each and putting one space between them |
| `Wrap.WrapText` | server/index.js:42-60 | the loop returns exactly `["..."]` for null, undefined or empty text, and otherwise the greedy fill `WrapLines` of the tokens |
| `Wrap.FillShape` | server/index.js:46-58 | the fill keeps every token in order, no group is empty, and there are at most as many groups as tokens |
| `Wrap.FillWidth` | server/index.js:50-53 | every group of two or more tokens was accepted by the strict `width < maxWidth` test |
| `Wrap.FillGreedy` | server/index.js:50-55 | every group after the first starts with a token whose addition to the previous group measured at least `maxWidth` |
| `Wrap.WrapCount` | server/index.js:43-59 | the result is never empty; for truthy text it has at most as many lines as `split(' ')` has tokens |
| `Wrap.WrapRoundTrip` | server/index.js:44-59 | for truthy text, joining the returned lines with `" "` reproduces the text exactly |
| `Wrap.WrapKeepsTokens` | server/index.js:44-59 | no token is cut or reordered: re-splitting each line and concatenating gives `text.split(' ')` |
| `Wrap.WrapWidth` | server/index.js:48-56 | every line of two or more tokens measures strictly less than `maxWidth`; a line measuring `maxWidth` or more is a single token alone |
| `Wrap.WrapGreedy` | server/index.js:50-55 | for every line but the last, the line plus `" "` plus the first token of the next line measures at least `maxWidth` |
| `Layout.Classify` | server/index.js:115-121 | an item is skipped iff its box is missing, its text falsy, its page number falsy, or page number - 1 >= page count; it is drawn iff all are present and 1 <= page number <= page count, on page index page number - 1; otherwise its index is negative and the page lookup throws |
| `Layout.Max` | server/index.js:133 | `Math.max`: the result is at least both arguments and is one of them |
| `Layout.DrawPatch` | server/index.js:122-167 | the box arithmetic, the wrap, the rectangle and the lines of one accepted item produce exactly `Patch` of the mapped box and the wrapped text |
| `Layout.FitText` | server/index.js:133-135 | the patch width is `Math.max(originalBoxWidth, 110)`, and the lines are exactly `wrapText` of the text at size 10 to that width less twice the padding |
| `Layout.EmitPatch` | server/index.js:136-167 | the rectangle sized to the lines, with `newBoxY` 5 below the box's bottom edge and the rectangle's top at `newBoxY + 10`, 5 above that edge, then the runs of the inner loop, produce exactly `PatchAt` |
| `Layout.DrawLines` | server/index.js:155-167 | the inner loop emits exactly `TextRuns`: one centred run per line, in order, the baseline lowered by the line height after each |
| `Layout.Translate` | server/index.js:114-168 | the loop with its `continue` guards produces exactly `Instructions`: the items' instructions in list order, or the error of the first item whose page lookup throws |
| `Layout.FailureSticks` | server/index.js:117-121 | once an item throws, the request fails with that error whatever follows |
| `Layout.TextRunsAt` | server/index.js:155-166 | the k-th run (from 0) draws the k-th line at baseline `y - 14k`, size 10, at `x + (w - width(line))/2` |
| `LayoutFacts.PatchRect` | server/index.js:133-152 | the rectangle comes first, at the mapped box's left edge `originalBoxX`; its width is at least 110 and at least `originalBoxWidth` and equals one of them; its height is `20 + 14*lines`; its `y` is `originalBoxY - 5 - height + 10`; one instruction per line follows it |
| `LayoutFacts.PatchRuns` | server/index.js:155-167 | after the rectangle comes one text run per wrapped line, in line order, the k-th (from 0) at baseline `originalBoxY - 5 - 10 - 14k`, size 10, each centred: `x_k + width(line_k)/2 == rect.x + rect.width/2` |
| `LayoutFacts.BaselinesInsidePatch` | server/index.js:140-166 | the patch's top lies 5 above the box's bottom edge, and every baseline lies inside the patch, at least 14 above its bottom and at least 20 below its top |
| `LayoutFacts.LinesInsidePatch` | server/index.js:133-158 | the text is wrapped at size 10 to the rectangle's width less 20, so a line of two or more tokens lies horizontally inside the patch with more than the padding of 10 on each side |
| `LayoutFacts.ItemOutcome` | server/index.js:115-121 | an item contributes no instructions iff one of the four skip conditions holds, and fails the request iff its fields are present and its page number is negative |
| `LayoutFacts.InstructionsOk` | server/index.js:114-121 | the request succeeds iff no item reaches the page lookup with a negative index |
| `LayoutFacts.OnePatchPerDrawnItem` | server/index.js:114-152 | a successful run draws exactly one rectangle per accepted item |
| `LayoutFacts.BoxMapping` | server/index.js:125-127 | the mapped box's right edge is `xmax/1000*W`, its bottom edge is `(1000 - ymax)/1000*H` in the page's y-up space, and the full box (0, 0, 1000, 1000) maps to x 0, bottom 0, width W |
| `LayoutFacts.BoxOnPage` | server/index.js:125-126 | a box with `xmin` and `ymax` in 0..1000 on a page of non-negative size has its left edge and its bottom edge on the page |

## Left out

- The Express app, CORS, the multer upload, the `/tmp` file writes and deletes, and `res.download` (server/index.js:1-40, 62-70, 170-196) are HTTP and file I/O.
- The Gemini file upload, the prompt, the `generateContent` call and the `JSON.parse` of the reply (server/index.js:67-98) are remote calls. The translation list is an arbitrary input.
- PDF loading, font embedding and `getPages` (server/index.js:101-112) are foreign library calls. Page sizes are an input, and the font metric is a parameter.
- Real drawing is not modelled. `drawRectangle` and `drawText` become `Rect` and `Text` records.
- The colours (white fill, black border and text), the border width 1.5 and the opacity 0.95 are dropped. They are constants with no bearing on the layout.
- JavaScript number arithmetic is modelled with exact `real`, so IEEE-754 rounding is not captured. For example, `fontSize * 1.4` is exactly 14 in the model.
- Only the JSON shapes the prompt asks for are modelled. An integer page number, a string text and a four-number box are all the model accepts. A non-integer or non-numeric page number, a non-string truthy text (on which `split` would throw), and a `box_2d` that is truthy but not four numbers are outside the model. Such a box gives NaN coordinates, or real ones when its entries are numeric strings, or makes the destructuring at server/index.js:122 throw and the request fail through the catch at server/index.js:189-191.
- `client/src/App.js`, `server/check.js` and `client/tailwind.config.js` are UI, network setup and styling, with no layout logic.
