/**
 * `Parse_Args`: the client's command-line grammar
 *
 *     loadgen { -p <size> | -t | -<other> } <url> [<count>] ...
 *
 * An argument whose first character is `-` is a flag and only its second character is
 * looked at. `-p` selects pool mode and takes the next argument as the pool size, provided
 * that argument does not begin with a letter; `-t` selects per-request mode; any other flag
 * is skipped. The first argument that is not a flag is the URL, and the one after it, if
 * any, the request count. The function writes four globals as it goes and throws
 * `invalid_argument` on three errors; a throw leaves behind whatever it had written.
 */
module ArgParse {

  import opened Wrappers
  import opened CString
  import opened Dispatch

  /** The globals `user_url`, `user_num_req`, `type` and `pool_size`. */
  datatype Globals = Globals(url: Option<string>, numRequests: int, mode: ThreadType, poolSize: int)

  /** Their values at program start: a null URL, one request, per-request mode, pool size 0. */
  const Startup: Globals := Globals(None, 1, PerRequest, 0)

  /** The three `invalid_argument` exceptions. */
  datatype ArgError = MinimumUsage | MissingPoolSize | MissingUrlAndCount

  function Message(e: ArgError): string
  {
    match e
    case MinimumUsage => "Minimum Usage: ./http-loadgen <url>"
    case MissingPoolSize => "Must specify pool size."
    case MissingUrlAndCount => "Must specify URL & request count."
  }

  /** How a call of `Parse_Args` ends, with the globals as it leaves them. */
  datatype Outcome = Returned(globals: Globals) | Threw(error: ArgError, globals: Globals)

  /** Where the flag scan ends: at the index of the first positional argument (or `argc`), or in a throw. */
  datatype Scan = Stopped(at: nat, globals: Globals) | Failed(error: ArgError, globals: Globals)

  /** `argv[i][0] == '-'`; the empty argument starts with the terminator and is positional. */
  predicate IsFlag(arg: string)
  {
    CharAt(arg, 0) == '-'
  }

  /** The flag's letter, `argv[i][1]`; a bare `-` has the terminator there. */
  function FlagLetter(arg: string): char
  {
    CharAt(arg, 1)
  }

  /** `-p` may take the next argument as its size only if it does not begin with a letter. */
  predicate CanBePoolSize(arg: string)
  {
    !IsAlpha(CharAt(arg, 0))
  }

  /**
   * The flag loop of `Parse_Args` from index `i` with globals `g`, as a recursive function.
   * Flags never touch the URL or the request count, the scan stops only at `argc` or at an
   * argument that is not a flag, and the only error it raises is the missing pool size.
   */
  function ScanFlags(argv: seq<string>, i: nat, g: Globals): (r: Scan)
    requires i <= |argv|
    ensures r.globals.url == g.url && r.globals.numRequests == g.numRequests
    ensures r.Stopped? ==> i <= r.at <= |argv| && (r.at < |argv| ==> !IsFlag(argv[r.at]))
    ensures r.Failed? ==> r.error == MissingPoolSize && r.globals.mode == ThreadPool
    decreases |argv| - i
  {
    if i == |argv| || !IsFlag(argv[i]) then Stopped(i, g)
    else if FlagLetter(argv[i]) == 'p' then
      var h := g.(mode := ThreadPool);
      if i + 1 < |argv| && CanBePoolSize(argv[i + 1]) then
        ScanFlags(argv, i + 2, h.(poolSize := Atoi(argv[i + 1])))
      else
        Failed(MissingPoolSize, h)
    else if FlagLetter(argv[i]) == 't' then ScanFlags(argv, i + 1, g.(mode := PerRequest))
    else ScanFlags(argv, i + 1, g)
  }

  /**
   * `Parse_Args(argc, argv)` started with the globals `g`. It throws the minimum-usage
   * error exactly when there are fewer than two arguments, and then writes nothing.
   */
  function Parse(argv: seq<string>, g: Globals): (r: Outcome)
    ensures (r.Threw? && r.error == MinimumUsage) <==> |argv| < 2
    ensures |argv| < 2 ==> r.globals == g
    ensures r.Returned? ==> r.globals.url.Some? && r.globals.url.value in argv[1..]
  {
    if |argv| < 2 then Threw(MinimumUsage, g)
    else match ScanFlags(argv, 1, g)
      case Failed(e, h) => Threw(e, h)
      case Stopped(k, h) =>
        if k == |argv| then Threw(MissingUrlAndCount, h)
        else
          Returned(h.(url := Some(argv[k]),
                      numRequests := if k + 1 < |argv| then Atoi(argv[k + 1]) else h.numRequests))
  }

  /**
   * The loop of `Parse_Args` as written: the index `i` is advanced by the loop and, past a
   * pool size, inside the body too; the globals are assigned one at a time.
   */
  method ParseArgs(argv: seq<string>, before: Globals) returns (outcome: Outcome)
    ensures outcome == Parse(argv, before)
  {
    var g := before;
    if |argv| < 2 {
      return Threw(MinimumUsage, g);
    }
    var i := 1;
    while i < |argv|
      invariant 1 <= i <= |argv|
      invariant ScanFlags(argv, i, g) == ScanFlags(argv, 1, before)
    {
      if !IsFlag(argv[i]) {
        break;
      }
      ghost var scan := ScanFlags(argv, i, g);
      var letter := FlagLetter(argv[i]);
      if letter == 'p' {
        g := g.(mode := ThreadPool);
        if i + 1 < |argv| && CanBePoolSize(argv[i + 1]) {
          i := i + 1;
          g := g.(poolSize := Atoi(argv[i]));
          assert scan == ScanFlags(argv, i + 1, g);
        } else {
          assert ScanFlags(argv, 1, before) == Failed(MissingPoolSize, g);
          return Threw(MissingPoolSize, g);
        }
      } else if letter == 't' {
        g := g.(mode := PerRequest);
        assert scan == ScanFlags(argv, i + 1, g);
      } else {
        assert scan == ScanFlags(argv, i + 1, g);
      }
      i := i + 1;
    }
    assert ScanFlags(argv, 1, before) == Stopped(i, g);
    if i == |argv| {
      return Threw(MissingUrlAndCount, g);
    }
    g := g.(url := Some(argv[i]));
    i := i + 1;
    if i != |argv| {
      g := g.(numRequests := Atoi(argv[i]));
    }
    outcome := Returned(g);
  }

  /**
   * Appending arguments after a prefix the scan consumes whole does not change how the
   * prefix is scanned: the scan of the longer list resumes at the end of the prefix.
   */
  lemma {:induction false} ScanExtends(p: seq<string>, q: seq<string>, i: nat, g: Globals)
    requires i <= |p|
    requires ScanFlags(p, i, g).Stopped? && ScanFlags(p, i, g).at == |p|
    ensures ScanFlags(p + q, i, g) == ScanFlags(p + q, |p|, ScanFlags(p, i, g).globals)
    decreases |p| - i
  {
    var a := p + q;
    if i < |p| {
      assert a[i] == p[i];
      if FlagLetter(p[i]) == 'p' {
        assert i + 1 < |p|;
        assert a[i + 1] == p[i + 1];
        ScanExtends(p, q, i + 2, g.(mode := ThreadPool, poolSize := Atoi(p[i + 1])));
      } else if FlagLetter(p[i]) == 't' {
        ScanExtends(p, q, i + 1, g.(mode := PerRequest));
      } else {
        ScanExtends(p, q, i + 1, g);
      }
    }
  }

  /**
   * After flags that scan to globals `h`, the first argument that is not a flag is the URL;
   * the request count is `atoi` of the argument after it, or stays as it was when there is
   * none; nothing later is read, not even as a flag.
   */
  lemma UrlAndCount(flags: seq<string>, url: string, rest: seq<string>, g: Globals)
    requires |flags| >= 1
    requires ScanFlags(flags, 1, g).Stopped? && ScanFlags(flags, 1, g).at == |flags|
    requires !IsFlag(url)
    ensures var h := ScanFlags(flags, 1, g).globals;
      Parse(flags + [url] + rest, g)
        == Returned(h.(url := Some(url), numRequests := if rest == [] then h.numRequests else Atoi(rest[0])))
  {
    var argv := flags + [url] + rest;
    assert argv == flags + ([url] + rest);
    ScanExtends(flags, [url] + rest, 1, g);
    assert argv[|flags|] == url;
    if rest != [] {
      assert argv[|flags| + 1] == rest[0];
    }
  }

  /** With the startup globals and no count argument, one request is sent. */
  lemma DefaultCount(flags: seq<string>, url: string)
    requires |flags| >= 1
    requires ScanFlags(flags, 1, Startup).Stopped? && ScanFlags(flags, 1, Startup).at == |flags|
    requires !IsFlag(url)
    ensures Parse(flags + [url], Startup).Returned?
    ensures Parse(flags + [url], Startup).globals.numRequests == 1
    ensures Parse(flags + [url], Startup).globals.url == Some(url)
  {
    UrlAndCount(flags, url, [], Startup);
    assert flags + [url] + [] == flags + [url];
  }

  /** Flags and pool sizes that use up every argument leave no URL. */
  lemma MissingUrl(flags: seq<string>, g: Globals)
    requires |flags| >= 2
    requires ScanFlags(flags, 1, g).Stopped? && ScanFlags(flags, 1, g).at == |flags|
    ensures Parse(flags, g) == Threw(MissingUrlAndCount, ScanFlags(flags, 1, g).globals)
  {
  }

  /**
   * `-p` followed by an argument that does not begin with a letter selects pool mode,
   * whatever came before, and consumes that argument as the pool size.
   */
  lemma PoolFlagTakesSize(flags: seq<string>, p: string, size: string, g: Globals)
    requires |flags| >= 1
    requires ScanFlags(flags, 1, g).Stopped? && ScanFlags(flags, 1, g).at == |flags|
    requires IsFlag(p) && FlagLetter(p) == 'p' && CanBePoolSize(size)
    ensures var h := ScanFlags(flags, 1, g).globals;
      ScanFlags(flags + [p, size], 1, g)
        == Stopped(|flags| + 2, h.(mode := ThreadPool, poolSize := Atoi(size)))
  {
    var argv := flags + [p, size];
    ScanExtends(flags, [p, size], 1, g);
    assert argv[|flags|] == p && argv[|flags| + 1] == size;
  }

  /** `-p` as the last argument, or before one that begins with a letter, throws. */
  lemma PoolFlagWithoutSize(flags: seq<string>, p: string, rest: seq<string>, g: Globals)
    requires |flags| >= 1
    requires ScanFlags(flags, 1, g).Stopped? && ScanFlags(flags, 1, g).at == |flags|
    requires IsFlag(p) && FlagLetter(p) == 'p'
    requires rest == [] || !CanBePoolSize(rest[0])
    ensures var h := ScanFlags(flags, 1, g).globals;
      Parse(flags + [p] + rest, g) == Threw(MissingPoolSize, h.(mode := ThreadPool))
  {
    var argv := flags + [p] + rest;
    assert argv == flags + ([p] + rest);
    ScanExtends(flags, [p] + rest, 1, g);
    assert argv[|flags|] == p;
    if rest != [] {
      assert argv[|flags| + 1] == rest[0];
    }
  }

  /** `-t` selects per-request mode, whatever came before. */
  lemma PerRequestFlag(flags: seq<string>, t: string, g: Globals)
    requires |flags| >= 1
    requires ScanFlags(flags, 1, g).Stopped? && ScanFlags(flags, 1, g).at == |flags|
    requires IsFlag(t) && FlagLetter(t) == 't'
    ensures var h := ScanFlags(flags, 1, g).globals;
      ScanFlags(flags + [t], 1, g) == Stopped(|flags| + 1, h.(mode := PerRequest))
  {
    ScanExtends(flags, [t], 1, g);
    assert (flags + [t])[|flags|] == t;
  }

  /** Any other flag, including a bare `-`, is skipped and changes nothing. */
  lemma OtherFlagSkipped(flags: seq<string>, f: string, g: Globals)
    requires |flags| >= 1
    requires ScanFlags(flags, 1, g).Stopped? && ScanFlags(flags, 1, g).at == |flags|
    requires IsFlag(f) && FlagLetter(f) != 'p' && FlagLetter(f) != 't'
    ensures ScanFlags(flags + [f], 1, g) == Stopped(|flags| + 1, ScanFlags(flags, 1, g).globals)
  {
    ScanExtends(flags, [f], 1, g);
    assert (flags + [f])[|flags|] == f;
  }
}
