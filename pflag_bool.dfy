/**
  The boolean flag value of pflag and the functions that declare boolean flags.
  A `*bool` is a `BoolCell` on the heap; a `boolValue` is a view of such a
  cell, so writing through the value is writing the caller's own storage.
 */
module Pflag {
  import opened Wrappers
  import opened Strconv

  /** The storage a `*bool` points to. */
  class BoolCell {
    var value: bool

    /** `new(bool)`: fresh storage holding Go's zero value. */
    constructor ()
      ensures value == false
    {
      value := false;
    }
  }

  /** `boolValue`: the cell `p`, read as a flag value. It holds no state of its
      own; every read and write goes to `p`. */
  datatype BoolValue = BoolValue(p: BoolCell)
  {
    /** `Set`: parse `s` and store the parsed value, whether or not the parse
        succeeded. On rejected text the cell therefore becomes `false`. */
    method Set(s: string) returns (err: Option<Error>)
      modifies p
      ensures err.None? <==> s in Accepted
      ensures p.value <==> s in TrueForms
      ensures p.value == ParseBool(s).value && err == ParseBool(s).err
    {
      var r := ParseBool(s);
      p.value := r.value;
      err := r.err;
    }

    /** `String`: the canonical text of the current value, which `Set` reads
        back as the same value. */
    function String(): (r: string)
      reads p
      ensures r == "true" <==> p.value
      ensures r == "false" <==> !p.value
      ensures ParseBool(r) == ParseResult(p.value, None)
    {
      FormatBool(p.value)
    }
  }

  /** `newBoolValue`: store the default in the caller's cell and return a value
      that is that cell, not a copy. No other storage changes. */
  method NewBoolValue(val: bool, p: BoolCell) returns (b: BoolValue)
    modifies p
    ensures p.value == val
    ensures b.p == p
  {
    p.value := val;
    b := BoolValue(p);
  }

  /** What the registration primitive `VarP` receives. */
  datatype Declaration = Declaration(value: BoolValue, name: string, shorthand: string, usage: string)

  /** A flag set, reduced to the declarations it has been handed. */
  class FlagSet {
    var declarations: seq<Declaration>

    constructor ()
      ensures declarations == []
    {
      declarations := [];
    }

    /** `VarP`, reduced to recording the declaration; it touches no cell. */
    method VarP(value: BoolValue, name: string, shorthand: string, usage: string)
      modifies this
      ensures declarations == old(declarations) + [Declaration(value, name, shorthand, usage)]
    {
      declarations := declarations + [Declaration(value, name, shorthand, usage)];
    }

    /** `BoolVar`: a long name only, stored in the caller's cell `p`. */
    method BoolVar(p: BoolCell, name: string, value: bool, usage: string)
      modifies this, p
      ensures p.value == value
      ensures declarations == old(declarations) + [Declaration(BoolValue(p), name, "", usage)]
    {
      var b := NewBoolValue(value, p);
      VarP(b, name, "", usage);
    }

    /** `BoolVarP`: a long name and a shorthand, stored in `p`. */
    method BoolVarP(p: BoolCell, name: string, shorthand: string, value: bool, usage: string)
      modifies this, p
      ensures p.value == value
      ensures declarations == old(declarations) + [Declaration(BoolValue(p), name, shorthand, usage)]
    {
      var b := NewBoolValue(value, p);
      VarP(b, name, shorthand, usage);
    }

    /** `BoolVarS`: a shorthand only, stored in `p`. */
    method BoolVarS(p: BoolCell, shorthand: string, value: bool, usage: string)
      modifies this, p
      ensures p.value == value
      ensures declarations == old(declarations) + [Declaration(BoolValue(p), "", shorthand, usage)]
    {
      var b := NewBoolValue(value, p);
      VarP(b, "", shorthand, usage);
    }

    /** `Bool`: like `BoolVar`, but in newly allocated storage, which is returned. */
    method Bool(name: string, value: bool, usage: string) returns (p: BoolCell)
      modifies this
      ensures fresh(p) && p.value == value
      ensures declarations == old(declarations) + [Declaration(BoolValue(p), name, "", usage)]
    {
      p := new BoolCell();
      BoolVarP(p, name, "", value, usage);
    }

    /** `BoolP`: like `BoolVarP`, in newly allocated storage. */
    method BoolP(name: string, shorthand: string, value: bool, usage: string) returns (p: BoolCell)
      modifies this
      ensures fresh(p) && p.value == value
      ensures declarations == old(declarations) + [Declaration(BoolValue(p), name, shorthand, usage)]
    {
      p := new BoolCell();
      BoolVarP(p, name, shorthand, value, usage);
    }

    /** `BoolS`: like `BoolVarS`, in newly allocated storage. */
    method BoolS(shorthand: string, value: bool, usage: string) returns (p: BoolCell)
      modifies this
      ensures fresh(p) && p.value == value
      ensures declarations == old(declarations) + [Declaration(BoolValue(p), "", shorthand, usage)]
    {
      p := new BoolCell();
      BoolVarP(p, "", shorthand, value, usage);
    }
  }

  // The package-level functions. Go reaches the process-wide flag set through
  // the global `CommandLine`; here it is passed in, and it is the only flag
  // set that changes.

  /** Package-level `BoolVar`. */
  method BoolVar(commandLine: FlagSet, p: BoolCell, name: string, value: bool, usage: string)
    modifies commandLine, p
    ensures p.value == value
    ensures commandLine.declarations
         == old(commandLine.declarations) + [Declaration(BoolValue(p), name, "", usage)]
  {
    var b := NewBoolValue(value, p);
    commandLine.VarP(b, name, "", usage);
  }

  /** Package-level `BoolVarP`. */
  method BoolVarP(commandLine: FlagSet, p: BoolCell, name: string, shorthand: string, value: bool, usage: string)
    modifies commandLine, p
    ensures p.value == value
    ensures commandLine.declarations
         == old(commandLine.declarations) + [Declaration(BoolValue(p), name, shorthand, usage)]
  {
    var b := NewBoolValue(value, p);
    commandLine.VarP(b, name, shorthand, usage);
  }

  /** Package-level `BoolVarS`. */
  method BoolVarS(commandLine: FlagSet, p: BoolCell, shorthand: string, value: bool, usage: string)
    modifies commandLine, p
    ensures p.value == value
    ensures commandLine.declarations
         == old(commandLine.declarations) + [Declaration(BoolValue(p), "", shorthand, usage)]
  {
    var b := NewBoolValue(value, p);
    commandLine.VarP(b, "", shorthand, usage);
  }

  /** Package-level `Bool`, which goes through `CommandLine.BoolP` with no shorthand. */
  method Bool(commandLine: FlagSet, name: string, value: bool, usage: string) returns (p: BoolCell)
    modifies commandLine
    ensures fresh(p) && p.value == value
    ensures commandLine.declarations
         == old(commandLine.declarations) + [Declaration(BoolValue(p), name, "", usage)]
  {
    p := commandLine.BoolP(name, "", value, usage);
  }

  /** Package-level `BoolP`. */
  method BoolP(commandLine: FlagSet, name: string, shorthand: string, value: bool, usage: string) returns (p: BoolCell)
    modifies commandLine
    ensures fresh(p) && p.value == value
    ensures commandLine.declarations
         == old(commandLine.declarations) + [Declaration(BoolValue(p), name, shorthand, usage)]
  {
    p := commandLine.BoolP(name, shorthand, value, usage);
  }

  /** Package-level `BoolS`, which goes through `CommandLine.BoolP` with no name. */
  method BoolS(commandLine: FlagSet, shorthand: string, value: bool, usage: string) returns (p: BoolCell)
    modifies commandLine
    ensures fresh(p) && p.value == value
    ensures commandLine.declarations
         == old(commandLine.declarations) + [Declaration(BoolValue(p), "", shorthand, usage)]
  {
    p := commandLine.BoolP("", shorthand, value, usage);
  }

  // Clients: what a caller can conclude from the contracts above alone.

  /** Rendering the value and setting it from that text succeeds and leaves
      the cell as it was. */
  method SetFromString(b: BoolValue) returns (err: Option<Error>)
    modifies b.p
    ensures err.None? && b.p.value == old(b.p.value)
  {
    err := b.Set(b.String());
  }

  /** Setting a canonical spelling and rendering gives that spelling back. */
  method StringAfterSet(b: BoolValue, s: string) returns (r: string)
    requires s == "true" || s == "false"
    modifies b.p
    ensures r == s
  {
    var _ := b.Set(s);
    r := b.String();
  }

  /** A value built over a cell writes that cell and no other, whatever the
      text: another cell keeps its value even when the parse fails. */
  method WriteThroughValue(p: BoolCell, other: BoolCell, val: bool, s: string) returns (err: Option<Error>)
    requires other != p
    modifies p
    ensures p.value == (s in TrueForms) && err.None? == (s in Accepted)
    ensures other.value == old(other.value)
  {
    var b := NewBoolValue(val, p);
    err := b.Set(s);
  }

  /** Two flag sets: `verbose` declared by name in one, `v` by shorthand in the
      other, each in its own storage with default `false`. Setting the first
      declaration's value to "1" is seen in the caller's storage `p` and in no
      other: `q` and the storage `Bool` allocated keep `false`. */
  method TwoFlagSets() returns (verbose: bool, short: bool, ownStorage: bool, err: Option<Error>)
    ensures verbose && !short && !ownStorage && err.None?
  {
    var f1 := new FlagSet();
    var f2 := new FlagSet();
    var p := new BoolCell();
    var q := new BoolCell();
    f1.BoolVar(p, "verbose", false, "verbose output");
    f2.BoolVarS(q, "v", false, "verbose output");
    var r := f2.Bool("quiet", false, "no output");
    assert |f1.declarations| == 1 && f1.declarations[0].value.p == p;
    err := f1.declarations[0].value.Set("1");
    verbose, short, ownStorage := p.value, q.value, r.value;
  }
}
