# Route-aware content store of engmanager.xyz, in Dafny

This project models the content core of a small content-managed website:

- The typed **block** model. A `Block` is either a `Header` (a headline plus one button) or a `Hero` (a headline plus a subheadline). A `BlockWithId` pairs a block with a string id.
- The per-route **document** `HomepageData` and its fixed seed content.
- The **store** that persists documents as JSON files. The store reaches a document through the route index `data/routes.json`. It looks up a route name there, takes the first content path of the first matching route, and reads or writes that file.

Files:

- `wrappers.dfy`: `Option`, `Result` and `Outcome`, which stand for Rust's `Option`, `Result<T, E>` and `Result<(), E>`.
- `blocks.dfy` (module `Blocks`): the block datatypes, the legacy id-less `HomepageData`, its constructor and its seed.
- `homepage.dfy` (module `Homepage`): `HomepageData` over `BlockWithId`, its constructor, the seed with fixed ids, and the proof that the seed carries the same payloads as the legacy seed.
- `persistence.dfy` (module `Persistence`): the route index, route resolution, the read path, and the `Store` class with the write path.

## How the store is modelled

- **Disk.** The file system is a `map<string, FileEntry>`:
  - an absent key is a file that does not exist (`io::ErrorKind::NotFound`);
  - `Unreadable` is a file whose read fails for any other reason;
  - `Text(s)` is a file that reads as the text `s`.
- **Read path.** `LoadRoutes`, `ContentPath`, `LoadBlocks` and `LoadHomepageBlocks` are functions of the current disk.
  - Each call therefore re-reads the route index and sees the latest writes.
  - None of them can change the disk.
  - Each returns a `Traced` value: the result plus the diagnostics the source writes to stderr with `eprintln!`.
- **Write path.** `Store` holds the disk in a field. `SaveBlocks`, `SaveHomepageBlocks` and `SaveRoutes` are methods that update it.
  - Each method's effect is stated by a ghost predicate over the disk before and after the call: `SavedBlocks` or `SavedRoutes`.
  - The lemmas about what a later read sees are stated over those predicates.
- **`fs::write`.** `Store.Write` models the file write. Whether a write completes is left to the environment, so the model chooses it nondeterministically.
  - If the write fails, the call returns `IoError`.
  - Every other file stays unchanged.
  - Nothing is claimed about the target file after a failed write.
- **JSON.** The serde encoder and decoder are not part of this model. A `Codec` value stands for them, with four total functions: parse and render for a document, and parse and render for a route index.
  - Parsing yields `None` on malformed input.
  - Rendering yields `None` when the encoder fails.
  - The only thing assumed about a codec is the predicate `RoundTrips`. It says that rendered output parses back to the same value, and that a rendered route index is never blank. A JSON array always starts with `[`, so it is never blank.
  - Every lemma that relies on this assumption states it as `requires RoundTrips(json)`.
  - The unit tests at `website/src/core/persistence.rs:291-327` are instances of this assumption and are restated as lemmas.
- **`str::trim`.** `trim` is modelled over the Unicode White_Space characters, which are the characters Rust's `char::is_whitespace` accepts. `TrimEmptyIffBlank` proves that a string trims to empty exactly when every character in it is whitespace.

Where the source's own doc comments and its code differ, the model follows the code:

- The module comment at `website/src/core/persistence.rs:15` places route content at `data/content/{route_name}.json`. `get_content_path` (`:77-84`) instead uses the first `blockIds` entry of the route, whatever its text.
- The doc comment of `load_routes` (`:220-224`) lists only a missing file and invalid JSON as fallbacks. The code at `:233` also falls back on a file whose text is empty or whitespace-only.

No block-id or route-name uniqueness is checked anywhere in the source.

## Model

| member | source | states |
|---|---|---|
| `Blocks.New` | website/src/core/block.rs:83-85 | The legacy `HomepageData::new` keeps the given blocks verbatim: same length, same element at every position. |
| `Blocks.DefaultBlocks` | website/src/core/block.rs:88-103 | The legacy seed has exactly two blocks: a Header ("Eng Manager", button "/contact", "Get in touch", the fixed aria label), then a Hero with the fixed headline and subheadline. |
| `Homepage.New` | website/src/pages/homepage.rs:52-54 | `HomepageData::new` keeps the given blocks with ids verbatim and in order. |
| `Homepage.DefaultBlocks` | website/src/pages/homepage.rs:60-81 | The seed is non-empty with exactly two entries: a Header under id ...440001, then a Hero under id ...440002. The two ids are distinct, and every payload field has its fixed value. |
| `Homepage.DefaultBlocksMatchLegacy` | website/src/pages/homepage.rs:60-81 | Dropping the ids from the seed gives exactly the legacy id-less seed of `core/block.rs:88-103`. |
| `Persistence.TrimEmptyIffBlank` | website/src/core/persistence.rs:233 | `contents.trim().is_empty()` holds if and only if every character of `contents` is whitespace. |
| `Persistence.DefaultRoutes` | website/src/core/persistence.rs:279-285 | The default index is one route: path "/", name "homepage", content paths ["data/content/homepage.json"]. |
| `Persistence.LoadRoutes` | website/src/core/persistence.rs:230-254 | Non-blank text that parses is returned as-is, even an empty list. A missing, unreadable, blank or unparseable file gives the default index. Only the unreadable and unparseable cases are logged, once each. |
| `Persistence.FindByName` | website/src/core/persistence.rs:72-75 | `iter().find` stops at the first route with the given name, or past the end when no route has it. |
| `Persistence.ContentPath` | website/src/core/persistence.rs:69-85 | Each call re-reads the route index. The name is resolved against the routes the index file parses to, or against the default index when the file yields none. The diagnostics are exactly those of that read. |
| `Persistence.Resolve` | website/src/core/persistence.rs:72-84 | Resolution succeeds exactly when the first route of that name has content paths, and then yields that route's first path. Otherwise it fails with RouteNotFound exactly when no route has the name, or with NoBlockIds exactly when the first match lists no paths. |
| `Persistence.ResolveIgnoresLaterRoutes` | website/src/core/persistence.rs:72-75 | Routes appended after a route of the given name never change what the name resolves to; later duplicates are ignored. |
| `Persistence.DefaultIndexResolvesHomepage` | website/src/core/persistence.rs:329-336 | With no usable route index, "homepage" resolves to "data/content/homepage.json". |
| `Persistence.LoadBlocks` | website/src/core/persistence.rs:109-135 | The result is either empty or exactly the blocks of the document the resolved file parses to. Whenever the resolved file parses, its blocks are returned verbatim, even an empty list. At most one diagnostic is added to those of the route lookup. |
| `Persistence.LoadBlocksDiagnostics` | website/src/core/persistence.rs:111-133 | An unresolved route, an unreadable file and an unparseable file each give [] and log one diagnostic. A missing file gives [] and logs nothing. A file that parses adds no diagnostic. |
| `Persistence.LoadHomepageBlocks` | website/src/core/persistence.rs:185-194 | The result is never empty. It is the seed when `load_blocks("homepage")` is empty, and otherwise that list unchanged, with the same diagnostics. |
| `Persistence.MissingContentFallsBack` | website/src/core/persistence.rs:119-133 | If the resolved content file does not exist, the route reads as [] with no new diagnostic, and the homepage then shows exactly the seed. |
| `Persistence.Store.Write` | website/src/core/persistence.rs:169 | On success the file holds exactly the text. On failure the result is IoError and only that file may have changed. |
| `Persistence.Store.SaveBlocks` | website/src/core/persistence.rs:160-171 | If resolution fails, that error is returned and nothing changes. If serialisation fails, SerializationError is returned and nothing changes. Otherwise the resolved file alone is replaced by the serialisation of exactly the given blocks. |
| `Persistence.Store.SaveHomepageBlocks` | website/src/core/persistence.rs:211-213 | Has exactly the effect of saving the blocks to the "homepage" route. |
| `Persistence.Store.SaveRoutes` | website/src/core/persistence.rs:269-273 | A serialisation failure changes nothing. Otherwise `data/routes.json` is written, and no other file changes. |
| `Persistence.SaveToUnknownRouteWritesNothing` | website/src/core/persistence.rs:165 | Saving to a name that is not in the current index returns RouteNotFound, and the disk is unchanged. |
| `Persistence.SaveBlocksTouchesOnlyItsFile` | website/src/core/persistence.rs:165-169 | Whatever the outcome, a save leaves every file other than the resolved path exactly as it was. A name that does not resolve changes nothing at all. |
| `Persistence.SaveThenLoadBlocks` | website/src/core/persistence.rs:160-171 | After a successful save, the route resolves as before and loads back exactly the saved blocks. This relies on the round-trip assumption and on the target file not being the route index. |
| `Persistence.SavedEmptyHomepageReadsAsDefault` | website/src/core/persistence.rs:185-194 | After `[]` is saved to the homepage, `load_blocks` reads [] but `load_homepage_blocks` reads the seed. |
| `Persistence.SaveThenLoadRoutes` | website/src/core/persistence.rs:269-273 | After a successful `save_routes`, the index reads back as exactly the saved routes, and every name resolves against them. |
| `Persistence.SaveRoutesKeepsContent` | website/src/core/persistence.rs:271 | Whatever its outcome, `save_routes` leaves every file other than `data/routes.json` unchanged. |
| `Persistence.DefaultBlocksRoundTrip` | website/src/core/persistence.rs:291-300 | Under the round-trip assumption, a rendered seed document parses back and has two blocks. |
| `Persistence.TwoRoutesRoundTrip` | website/src/core/persistence.rs:302-327 | Under the round-trip assumption, a rendered two-route index parses back with every path, name and content-path list intact. |

## Left out

- Real file-system I/O, `PathBuf` and the working directory: the disk is the map above, and a write failure is an abstract `IoError`.
- serde's JSON details are not part of this model. These include the `type`/`props` tagging, the flattening of `id`, pretty-printing and the `blockIds` rename. The `Codec` and its `RoundTrips` assumption stand in for them. Output that is rendered for one type but parsed as the other is not constrained.
- Error message texts: a failure records its kind and the route name, not the formatted string.
- Persistence.Store.SaveBlocks: the diagnostics printed by the route-index read inside `save_blocks` are not reported. Only the read functions return diagnostics.
- The determinism of `default_blocks()` gets no lemma. Dafny functions are deterministic, so two calls are equal by construction.
- If a route's first content path is `data/routes.json`, saving blocks to it overwrites the route index. The source does not guard against this.
- Persistence.SaveThenLoadBlocks: holds only for canonical paths. Disk keys are compared as strings, so two spellings of one file (`./data/routes.json`, `data//routes.json`) are different keys in the model, although `fs::write` reaches the same file. The lemma excludes only the spelling `data/routes.json`; a route whose content path is another spelling of the route index is not excluded.
- Persistence.SaveBlocksTouchesOnlyItsFile: holds only for canonical paths, for the same reason. On a real file system, writing a second spelling of a file also changes the key of its canonical spelling.
- `ensure_block_ids` and UUID generation are not part of this model. No modelled file contains them.
- Route-name and block-id uniqueness are not checked by the source, so the model does not check them either.
- Concurrent writers, HTML templates, story previews, HTTP handlers, the embedded editor JavaScript and the feature schema files are out of scope: they are presentation or plumbing around the store.
