/**
 * The SD card as the controller sees it: a set of small text files, one per
 * setting, read whole with `readFile` and replaced with `writeFile`.
 */
module Card {

  /** File path to file contents; a path that is not a key has no file. */
  type Store = map<string, string>

  const SSID_PATH := "/ssid.txt"
  const PASS_PATH := "/pass.txt"
  const MODE_PATH := "/mode.txt"
  const TOKEN_PATH := "/token.txt"

  /** What `readFile` yields for `path`: the file's text, or "" when the file cannot be opened. */
  function Stored(fs: Store, path: string): string {
    if path in fs then fs[path] else ""
  }

  /**
   * `readFile`: open the file and append its characters one at a time; a
   * file that cannot be opened reads as the empty text.
   */
  method ReadFile(fs: Store, path: string) returns (content: string)
    ensures content == Stored(fs, path)
    ensures path !in fs ==> content == ""
  {
    content := "";
    if path !in fs {
      return;
    }
    var file := fs[path];
    var i := 0;
    while i < |file|
      invariant 0 <= i <= |file|
      invariant content == file[..i]
    {
      content := content + [file[i]];
      i := i + 1;
    }
  }

  /** Every file outside `paths` reads as it did. */
  ghost predicate SameElsewhere(before: Store, after: Store, paths: set<string>) {
    forall p :: p !in paths ==> Stored(after, p) == Stored(before, p)
  }

  /**
   * How one `writeFile` went: the file could not be opened for writing, the
   * print stopped after `count` characters (opening for writing has already
   * emptied the file), or the whole text was written. The card decides this,
   * so the model takes it as a parameter.
   */
  datatype WriteOutcome = OpenFailed | Partial(count: nat) | Written

  /** What `readFile` sees at a path after a write of `text` there, given what it saw before. */
  function AfterWrite(before: string, text: string, outcome: WriteOutcome): (r: string)
    ensures outcome.Written? ==> r == text
    ensures outcome.OpenFailed? ==> r == before
    ensures outcome.Partial? ==> r <= text && |r| == if outcome.count < |text| then outcome.count else |text|
  {
    match outcome
    case OpenFailed => before
    case Partial(n) => text[..if n < |text| then n else |text|]
    case Written => text
  }

  /**
   * `writeFile(path, text)`: no other file changes, and `path` then reads as
   * the outcome says.
   */
  method WriteFile(fs: Store, path: string, text: string, outcome: WriteOutcome) returns (fs': Store)
    ensures SameElsewhere(fs, fs', {path})
    ensures Stored(fs', path) == AfterWrite(Stored(fs, path), text, outcome)
  {
    match outcome
    case OpenFailed =>
      fs' := fs;
    case Partial(n) =>
      fs' := fs[path := text[..if n < |text| then n else |text|]];
    case Written =>
      fs' := fs[path := text];
  }
}
