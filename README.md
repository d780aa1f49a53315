# pflag boolean flags, modelled in Dafny

This project models the boolean flag type of pflag, a Go command-line flag library, as found in `bool.go`. It covers three things:

- **The flag value `boolValue`.** It is a view of caller-owned `*bool` storage. `Set` parses text with `strconv.ParseBool` and always stores the parsed value. `String` renders the value as `"true"` or `"false"`.
- **The binding constructor `newBoolValue`.** It writes the default into the caller's storage and returns a value that aliases that storage.
- **Twelve registration functions.** Six are methods on a flag set and six are package-level: `BoolVar`, `BoolVarP`, `BoolVarS`, `Bool`, `BoolP` and `BoolS`. Each one passes `(value, name, shorthand, usage)` to the registration primitive `VarP`. `Bool`, `BoolP` and `BoolS` allocate fresh storage first.

Files:

- `wrappers.dfy`: `Option`, used for Go's `error` result (`None` is `nil`).
- `strconv.dfy` (module `Strconv`): pure functions for `strconv.ParseBool` and for what `fmt.Sprintf("%v", b)` gives on a bool. The lemmas beside them cover:
  - which twelve spellings are accepted;
  - that only three casings of each word are accepted;
  - that no whitespace is trimmed;
  - the parse/render round trips.
- `pflag_bool.dfy` (module `Pflag`):
  - `BoolCell` is the heap cell behind a `*bool`.
  - `BoolValue` wraps a cell reference. It holds no state of its own, so every write through it is a write to the caller's cell.
  - `FlagSet` keeps the sequence of declarations handed to `VarP`.
  - The six registration methods on `FlagSet`, and the package-level functions, which take the process-wide `CommandLine` flag set as an explicit parameter.
  - A few client methods that state the aliasing and round-trip properties at the level of method calls.

`Set` stores whatever `ParseBool` returned (`bool.go:17-19`), so rejected text leaves the cell `false` whatever it held before. The model follows this: `BoolValue.Set` does not commit only on success.

## Model

| member | source | states |
|---|---|---|
| `Strconv.ParseBool` | bool.go:17 | Succeeds exactly on the twelve accepted spellings. The value is `true` exactly for the six true spellings. Rejected text gives an error together with the value `false`. |
| `Strconv.FormatBool` | bool.go:22 | The rendered text is `"true"` or `"false"`, and `ParseBool` reads it back as the same value with no error. |
| `Strconv.AcceptedHasTwelveForms` | bool.go:17 | There are six true spellings and six false spellings, all distinct: twelve strings in all. |
| `Strconv.AcceptedAreThreeCasings` | bool.go:17 | The accepted spellings are: the digit; the initial letter; the whole word. The letters and words are accepted in lower, upper and title case only. |
| `Strconv.RenderAfterParse` | bool.go:16-22 | Parsing then rendering gives back the input exactly when the input is `"true"` or `"false"`. This is stated in both directions. |
| `Strconv.RenderNormalises` | bool.go:16-22 | For any accepted text, rendering its value gives a text that parses to the same result. |
| `Strconv.NoTrimming` | bool.go:17 | Any text with a leading or trailing blank, tab or line break is rejected, for example `"TRUE "`. |
| `Strconv.RejectedExamples` | bool.go:17-19 | `""`, `"yes"`, `"2"`, `"TRUE "` and `"tRUE"` are each rejected with the value `false`. |
| `Pflag.BoolCell.constructor` | bool.go:59 | `new(bool)` gives fresh storage holding `false`. |
| `Pflag.BoolValue.Set` | bool.go:16-20 | Returns no error exactly on the accepted spellings. The cell ends up `true` exactly for a true spelling, so rejected text leaves it `false` whatever it held before. Only the cell changes. |
| `Pflag.BoolValue.String` | bool.go:22 | Returns `"true"` exactly when the cell is true and `"false"` exactly when it is false. It reads the cell without changing it, and `ParseBool` reads its text back as the cell's value. |
| `Pflag.NewBoolValue` | bool.go:11-14 | Afterwards the caller's cell holds the default and the returned value aliases that cell. No other storage changes. |
| `Pflag.FlagSet.VarP` | bool.go:27 | Appends the declaration `(value, name, shorthand, usage)` to the flag set's declarations and changes nothing else. |
| `Pflag.FlagSet.BoolVar` | bool.go:26-28 | Appends `(value over p, name, "", usage)`. Only this flag set and `p` change, and `p` holds the default. |
| `Pflag.FlagSet.BoolVarP` | bool.go:31-33 | Appends `(value over p, name, shorthand, usage)`. Only this flag set and `p` change, and `p` holds the default. |
| `Pflag.FlagSet.BoolVarS` | bool.go:36-38 | Appends `(value over p, "", shorthand, usage)`. Only this flag set and `p` change, and `p` holds the default. |
| `Pflag.FlagSet.Bool` | bool.go:58-62 | Returns freshly allocated storage that holds the default. Appends exactly one declaration `(value over it, name, "", usage)`. |
| `Pflag.FlagSet.BoolP` | bool.go:65-69 | Returns freshly allocated storage that holds the default. Appends exactly one declaration `(value over it, name, shorthand, usage)`. |
| `Pflag.FlagSet.BoolS` | bool.go:72-76 | Returns freshly allocated storage that holds the default. Appends exactly one declaration `(value over it, "", shorthand, usage)`. |
| `Pflag.BoolVar` | bool.go:42-44 | Same effect as `FlagSet.BoolVar` on the command-line flag set. No other flag set changes. |
| `Pflag.BoolVarP` | bool.go:47-49 | Same effect as `FlagSet.BoolVarP` on the command-line flag set. No other flag set changes. |
| `Pflag.BoolVarS` | bool.go:52-54 | Same effect as `FlagSet.BoolVarS` on the command-line flag set. No other flag set changes. |
| `Pflag.Bool` | bool.go:80-82 | Same effect as `FlagSet.Bool` on the command-line flag set: fresh storage holding the default, registered as `(name, "")`. |
| `Pflag.BoolP` | bool.go:85-87 | Same effect as `FlagSet.BoolP` on the command-line flag set: fresh storage holding the default, registered as `(name, shorthand)`. |
| `Pflag.BoolS` | bool.go:90-92 | Same effect as `FlagSet.BoolS` on the command-line flag set: fresh storage holding the default, registered as `("", shorthand)`. |
| `Pflag.SetFromString` | bool.go:16-22 | `Set(String())` always succeeds and leaves the cell unchanged. |
| `Pflag.StringAfterSet` | bool.go:16-22 | For `"true"` and `"false"`, calling `Set` and then `String` gives back the same text. |
| `Pflag.WriteThroughValue` | bool.go:11-20 | A value built by `NewBoolValue` over `p` writes `p` and no other cell, on success and on failure alike. |
| `Pflag.TwoFlagSets` | bool.go:26-62 | `verbose` is declared by name in one flag set and `v` by shorthand in another, each with default `false`. Setting `"1"` through the first declaration's value makes the caller's storage `true`. The other flag's storage and the storage `Bool` allocated stay `false`. |

## Left out

- The internals of `VarP` (flag.go, which is not part of this model). These are duplicate name and shorthand detection, the shorthand length check, the flag map and the `Flag` record's other fields. `FlagSet.VarP` only appends a declaration and has no error path. As a result, the uniqueness and shape-legality errors raised at registration time are not modelled.
- The argument-parsing loop, including what a bare `--flag` with no value means. Usage and help-text formatting are also left out. None of these is in `bool.go`.
- `fmt.Sprintf("%v", …)` in general. Only its result on a bool is modelled (`Strconv.FormatBool`).
- The exact error value and message of `strconv.ParseBool`. They are reduced to the single error `ErrSyntax`.
- The process-wide initialisation of the global `CommandLine`. The package-level functions take that flag set as an explicit parameter.
- The `Value` interface shared by pflag's other flag types. Declarations here hold a `BoolValue` directly.
- A nil `*bool` or nil `*boolValue`: Go panics on the dereference at bool.go:12, bool.go:18 and bool.go:22, so every `BoolVar*` and `Bool*` entry point panics on a nil `p`. The model's `BoolCell` references are non-null, which excludes this case.
- Go strings are byte strings; the model's `string` is a sequence of characters. Nothing is lost for `ParseBool`, which accepts only twelve ASCII spellings and rejects every other text, including text that is not valid UTF-8.
