/**
 * The output stream the streamers append to: the text written so far and the
 * format flags that decide how a `bool` is inserted.
 */
module Streams {

  /**
   * A format flag; only `boolalpha` changes what the writer emits. `skipws`
   * and `dec` are the flags every new stream starts with.
   */
  datatype FmtFlag = BoolAlpha | SkipWs | Dec | OtherFlag(code: nat)

  /** The flags `basic_ios::init` gives a newly constructed stream. */
  const DefaultFlags: set<FmtFlag> := {SkipWs, Dec}

  /** What inserting `b` writes: `true`/`false` under `boolalpha`, `1`/`0` otherwise. */
  function BoolInsertion(flags: set<FmtFlag>, b: bool): string {
    if BoolAlpha in flags then (if b then "true" else "false")
    else (if b then "1" else "0")
  }

  /** Regrouping appended text. */
  lemma AppendAssoc(a: string, b: string, c: string)
    ensures (a + b) + c == a + (b + c)
  {
  }

  class Stream {
    var text: string
    var flags: set<FmtFlag>

    /** A fresh `std::ostringstream`: no text, the default flags, not `boolalpha`. */
    constructor ()
      ensures text == [] && flags == DefaultFlags && BoolAlpha !in flags
    {
      text := [];
      flags := DefaultFlags;
    }

    /** Inserting characters or a string. */
    method Put(s: string)
      modifies this
      ensures text == old(text) + s && flags == old(flags)
    {
      text := text + s;
    }

    /** Inserting a `bool`. */
    method PutBool(b: bool)
      modifies this
      ensures text == old(text) + BoolInsertion(old(flags), b) && flags == old(flags)
    {
      text := text + BoolInsertion(flags, b);
    }

    /** Inserting a `double`; `num` is the host's formatting of it. */
    method PutDouble(num: real -> string, x: real)
      modifies this
      ensures text == old(text) + num(x) && flags == old(flags)
    {
      text := text + num(x);
    }

    /** `setf(f)`: set one flag and return the flags as they were. */
    method SetF(f: FmtFlag) returns (previous: set<FmtFlag>)
      modifies this
      ensures previous == old(flags) && flags == old(flags) + {f} && text == old(text)
    {
      previous := flags;
      flags := flags + {f};
    }

    /** `flags(fs)`: replace all flags. */
    method SetFlags(fs: set<FmtFlag>)
      modifies this
      ensures flags == fs && text == old(text)
    {
      flags := fs;
    }
  }
}
