/**
  The functional-options constructor for an HTTP server configuration.

  `NewServer` allocates a server record holding fixed defaults and then runs
  every supplied option against it, in order, each option overwriting fields
  of that one shared record. The options are closures in the original
  program; here they are the values of the datatype `ServerOption`, and
  running one is the method `Server.Apply`.

  The model has two layers:
  - a value layer (`Config`, `ApplyTo`, `ApplyAll`, `Build`) that says what
    a run of options computes, and the lemmas about it (defaults,
    last-write-wins, untouched fields, the composite timeouts option,
    idempotence, commuting of unrelated options, the bootstrap scenario);
  - an object layer (`Server`, `Server.Apply`, `NewServer`,
    `BootstrapServer`) that updates fields in place, as the program does,
    each method proved against the value layer.
 */
module HttpOptions {

  datatype Option<T> = None | Some(value: T)

  /** `time.Duration`: a signed 64-bit count of nanoseconds. */
  type Duration = d: int | -0x8000_0000_0000_0000 <= d < 0x8000_0000_0000_0000

  /** `time.Second` in nanoseconds. */
  const Second: Duration := 1_000_000_000

  const DefaultAddr: string := ":8080"
  const DefaultReadTimeout: Duration := 5 * Second
  const DefaultWriteTimeout: Duration := 5 * Second

  /**
    The four server fields the options touch, as a value. The handler is an
    interface value in the original program, so it may be nil: `None` stands
    for nil, `Some(h)` for a handler `h` of the opaque type `H`.
   */
  datatype Config<H> = Config(
    addr: string,
    readTimeout: Duration,
    writeTimeout: Duration,
    handler: Option<H>)

  /**
    One option, in place of the closure a `With*` function returns. The
    constructor names are those functions' names and carry their arguments.
   */
  datatype ServerOption<H> =
    | WithReadTimeout(timeout: Duration)
    | WithWriteTimeout(timeout: Duration)
    | WithAddress(address: string)
    | WithHandler(h: Option<H>)
    | WithTimeouts(readTimeout: Duration, writeTimeout: Duration)
  {
    /** How deep the option nests other options; used only for termination. */
    function Depth(): nat
    {
      if WithTimeouts? then 1 else 0
    }
  }

  /** The record `NewServer` starts from, before any option runs. */
  function Defaults<H>(): Config<H>
  {
    Config(DefaultAddr, DefaultReadTimeout, DefaultWriteTimeout, None)
  }

  /**
    What running one option does to the record. `WithTimeouts` is not given
    a meaning of its own: it runs the read-timeout option and then the
    write-timeout option.
   */
  function ApplyTo<H>(o: ServerOption<H>, c: Config<H>): Config<H>
    decreases o.Depth()
  {
    match o
    case WithReadTimeout(d) => c.(readTimeout := d)
    case WithWriteTimeout(d) => c.(writeTimeout := d)
    case WithAddress(a) => c.(addr := a)
    case WithHandler(h) => c.(handler := h)
    case WithTimeouts(r, w) => ApplyTo(WithWriteTimeout(w), ApplyTo(WithReadTimeout(r), c))
  }

  /** Runs the options one after another, first to last, starting from `c`. */
  function ApplyAll<H>(c: Config<H>, opts: seq<ServerOption<H>>): Config<H>
    decreases |opts|
  {
    if opts == [] then c
    else ApplyTo(opts[|opts| - 1], ApplyAll(c, opts[..|opts| - 1]))
  }

  /** The record `NewServer(opts...)` returns. */
  function Build<H>(opts: seq<ServerOption<H>>): Config<H>
  {
    ApplyAll(Defaults(), opts)
  }

  // ---------------------------------------------------------------------
  // A field-by-field view, independent of how `ApplyTo` is written.

  datatype Field = AddrField | ReadTimeoutField | WriteTimeoutField | HandlerField

  datatype FieldValue<H> = Text(s: string) | Nanos(d: Duration) | HandlerValue(h: Option<H>)

  /** The value of field `f` in `c`. */
  function Get<H>(c: Config<H>, f: Field): FieldValue<H>
  {
    match f
    case AddrField => Text(c.addr)
    case ReadTimeoutField => Nanos(c.readTimeout)
    case WriteTimeoutField => Nanos(c.writeTimeout)
    case HandlerField => HandlerValue(c.handler)
  }

  /**
    The value option `o` writes into field `f`, or `None` when `o` does not
    target `f`. This is the declarative reading of the options: which fields
    each one targets and with what.
   */
  function Target<H>(o: ServerOption<H>, f: Field): Option<FieldValue<H>>
  {
    match o
    case WithReadTimeout(d) => if f == ReadTimeoutField then Some(Nanos(d)) else None
    case WithWriteTimeout(d) => if f == WriteTimeoutField then Some(Nanos(d)) else None
    case WithAddress(a) => if f == AddrField then Some(Text(a)) else None
    case WithHandler(h) => if f == HandlerField then Some(HandlerValue(h)) else None
    case WithTimeouts(r, w) =>
      if f == ReadTimeoutField then Some(Nanos(r))
      else if f == WriteTimeoutField then Some(Nanos(w))
      else None
  }

  predicate Targets<H>(o: ServerOption<H>, f: Field)
  {
    Target(o, f).Some?
  }

  /** Two records that agree on every field are the same record. */
  lemma FieldsDetermineConfig<H>(c1: Config<H>, c2: Config<H>)
    requires forall f :: Get(c1, f) == Get(c2, f)
    ensures c1 == c2
  {
    assert Get(c1, AddrField) == Get(c2, AddrField);
    assert Get(c1, ReadTimeoutField) == Get(c2, ReadTimeoutField);
    assert Get(c1, WriteTimeoutField) == Get(c2, WriteTimeoutField);
    assert Get(c1, HandlerField) == Get(c2, HandlerField);
  }

  // ---------------------------------------------------------------------
  // Properties of a single option.

  /**
    Running an option writes exactly the fields it targets, with the values
    it carries, and leaves every other field as it was. No value is checked
    or adjusted on the way in.
   */
  lemma ApplyToFrame<H>(o: ServerOption<H>, c: Config<H>, f: Field)
    ensures Get(ApplyTo(o, c), f) == if Targets(o, f) then Target(o, f).value else Get(c, f)
  {
  }

  /**
    Every option other than `WithTimeouts` targets exactly one field, so it
    changes that field and no other.
   */
  lemma SingleFieldOption<H>(o: ServerOption<H>, c: Config<H>)
    requires !o.WithTimeouts?
    ensures exists f :: Targets(o, f) && forall g :: g != f ==> Get(ApplyTo(o, c), g) == Get(c, g)
  {
    var f := match o
      case WithReadTimeout(_) => ReadTimeoutField
      case WithWriteTimeout(_) => WriteTimeoutField
      case WithAddress(_) => AddrField
      case WithHandler(_) => HandlerField;
    forall g | g != f
      ensures Get(ApplyTo(o, c), g) == Get(c, g)
    {
      ApplyToFrame(o, c, g);
    }
    assert Targets(o, f);
  }

  /**
    No validation: whatever duration, address or handler an option carries,
    zero, negative and empty included, is what the field holds afterwards.
   */
  lemma StoredAsGiven<H>(d: Duration, a: string, h: Option<H>, c: Config<H>)
    ensures ApplyTo(WithReadTimeout(d), c).readTimeout == d
    ensures ApplyTo(WithWriteTimeout(d), c).writeTimeout == d
    ensures ApplyTo(WithAddress(a), c).addr == a
    ensures ApplyTo(WithHandler(h), c).handler == h
  {
  }

  /**
    `WithTimeouts(r, w)` sets the read timeout to `r` and the write timeout
    to `w`, keeps the address and the handler, and is the same as running
    `WithReadTimeout(r)` and then `WithWriteTimeout(w)`.
   */
  lemma TimeoutsIsReadThenWrite<H>(r: Duration, w: Duration, c: Config<H>)
    ensures ApplyTo(WithTimeouts(r, w), c) == ApplyAll(c, [WithReadTimeout(r), WithWriteTimeout(w)])
    ensures ApplyTo(WithTimeouts(r, w), c) == c.(readTimeout := r, writeTimeout := w)
  {
    var two: seq<ServerOption<H>> := [WithReadTimeout(r), WithWriteTimeout(w)];
    assert two[..1][..0] == [];
    assert ApplyAll(c, two[..1]) == ApplyTo(WithReadTimeout(r), c);
    assert ApplyAll(c, two) == ApplyTo(WithWriteTimeout(w), ApplyAll(c, two[..1]));
  }

  /** Running the same option twice in a row is the same as running it once. */
  lemma ApplyToIdempotent<H>(o: ServerOption<H>, c: Config<H>)
    ensures ApplyTo(o, ApplyTo(o, c)) == ApplyTo(o, c)
  {
  }

  /**
    Two options that target no field in common can run in either order: no
    ordering is imposed between unrelated options.
   */
  lemma UnrelatedOptionsCommute<H>(a: ServerOption<H>, b: ServerOption<H>, c: Config<H>)
    requires forall f :: !(Targets(a, f) && Targets(b, f))
    ensures ApplyTo(b, ApplyTo(a, c)) == ApplyTo(a, ApplyTo(b, c))
  {
    forall f
      ensures Get(ApplyTo(b, ApplyTo(a, c)), f) == Get(ApplyTo(a, ApplyTo(b, c)), f)
    {
      ApplyToFrame(a, c, f);
      ApplyToFrame(b, c, f);
      ApplyToFrame(b, ApplyTo(a, c), f);
      ApplyToFrame(a, ApplyTo(b, c), f);
    }
    FieldsDetermineConfig(ApplyTo(b, ApplyTo(a, c)), ApplyTo(a, ApplyTo(b, c)));
  }

  // ---------------------------------------------------------------------
  // Properties of a whole option list.

  /** With no options, `NewServer` returns the defaults. */
  lemma NoOptionsGivesDefaults<H>()
    ensures Build<H>([]) == Config(":8080", 5_000_000_000, 5_000_000_000, None)
  {
  }

  /** Running `a ++ b` is running `a` and then running `b` on the result. */
  lemma {:induction false} ApplyAllAppend<H>(c: Config<H>, a: seq<ServerOption<H>>, b: seq<ServerOption<H>>)
    ensures ApplyAll(c, a + b) == ApplyAll(ApplyAll(c, a), b)
    decreases |b|
  {
    if b == [] {
      assert a + b == a;
    } else {
      var ab := a + b;
      assert ab[|ab| - 1] == b[|b| - 1];
      assert ab[..|ab| - 1] == a + b[..|b| - 1];
      ApplyAllAppend(c, a, b[..|b| - 1]);
    }
  }

  /**
    Last write wins: when option `i` targets field `f` and no later option
    does, the record `NewServer` returns holds the value option `i` wrote.
   */
  lemma {:induction false} LastWriteWins<H>(opts: seq<ServerOption<H>>, f: Field, i: nat)
    requires i < |opts| && Targets(opts[i], f)
    requires forall j :: i < j < |opts| ==> !Targets(opts[j], f)
    ensures Get(Build(opts), f) == Target(opts[i], f).value
    decreases |opts|
  {
    var n := |opts|;
    var prefix := opts[..n - 1];
    assert opts == prefix + [opts[n - 1]];
    ApplyToFrame(opts[n - 1], Build(prefix), f);
    if i < n - 1 {
      LastWriteWins(prefix, f, i);
    }
  }

  /**
    A field that no option in the list targets keeps its default value.
   */
  lemma {:induction false} UntouchedKeepsDefault<H>(opts: seq<ServerOption<H>>, f: Field)
    requires forall j :: 0 <= j < |opts| ==> !Targets(opts[j], f)
    ensures Get(Build(opts), f) == Get(Defaults<H>(), f)
    decreases |opts|
  {
    if opts != [] {
      var n := |opts|;
      var prefix := opts[..n - 1];
      ApplyToFrame(opts[n - 1], Build(prefix), f);
      UntouchedKeepsDefault(prefix, f);
    }
  }

  /**
    Inside any option list, `WithTimeouts(r, w)` can be replaced by
    `WithReadTimeout(r)` followed by `WithWriteTimeout(w)` without changing
    what `NewServer` returns.
   */
  lemma TimeoutsExpandsInList<H>(pre: seq<ServerOption<H>>, r: Duration, w: Duration, post: seq<ServerOption<H>>)
    ensures Build(pre + [WithTimeouts(r, w)] + post)
         == Build(pre + [WithReadTimeout(r), WithWriteTimeout(w)] + post)
  {
    var d := Defaults<H>();
    var two: seq<ServerOption<H>> := [WithReadTimeout(r), WithWriteTimeout(w)];
    ApplyAllAppend(d, pre + [WithTimeouts(r, w)], post);
    ApplyAllAppend(d, pre, [WithTimeouts(r, w)]);
    ApplyAllAppend(d, pre + two, post);
    ApplyAllAppend(d, pre, two);
    TimeoutsIsReadThenWrite(r, w, ApplyAll(d, pre));
    assert [ServerOption<H>.WithTimeouts(r, w)][..0] == [];
  }

  /**
    Inside any option list, giving the same option twice in a row has the
    same result as giving it once.
   */
  lemma RepeatedOptionIsIdempotent<H>(pre: seq<ServerOption<H>>, o: ServerOption<H>, post: seq<ServerOption<H>>)
    ensures Build(pre + [o, o] + post) == Build(pre + [o] + post)
  {
    var d := Defaults<H>();
    ApplyAllAppend(d, pre + [o, o], post);
    ApplyAllAppend(d, pre + [o], post);
    ApplyAllAppend(d, pre, [o, o]);
    ApplyAllAppend(d, pre, [o]);
    assert [o, o][..1] == [o];
    assert [o][..0] == [];
    ApplyToIdempotent(o, ApplyAll(d, pre));
  }

  /**
    The option list of the program's entry point: address ":8099", the
    request multiplexer as handler, and 15-second read and write timeouts.
   */
  function BootstrapOptions<H>(mux: H): seq<ServerOption<H>>
  {
    [WithAddress(":8099"), WithHandler(Some(mux)), WithTimeouts(15 * Second, 15 * Second)]
  }

  lemma BootstrapConfig<H>(mux: H)
    ensures Build(BootstrapOptions(mux)) == Config(":8099", 15_000_000_000, 15_000_000_000, Some(mux))
  {
    var opts := BootstrapOptions(mux);
    var d := Defaults<H>();
    assert opts[..2][..1] == opts[..1] && opts[..1][..0] == [];
    assert ApplyAll(d, opts[..1]) == ApplyTo(opts[0], ApplyAll(d, []));
    assert Build(opts[..2]) == d.(addr := ":8099", handler := Some(mux));
    assert Build(opts) == ApplyTo(opts[2], Build(opts[..2]));
  }

  // ---------------------------------------------------------------------
  // The server object, updated in place.

  /** The four fields of `http.Server` that the options set. */
  class Server<H> {
    var Addr: string
    var ReadTimeout: Duration
    var WriteTimeout: Duration
    var Handler: Option<H>

    /** The record these fields hold right now. */
    function State(): Config<H>
      reads this
    {
      Config(Addr, ReadTimeout, WriteTimeout, Handler)
    }

    /** The composite literal that allocates the server with its defaults. */
    constructor ()
      ensures State() == Defaults()
    {
      Addr := DefaultAddr;
      ReadTimeout := DefaultReadTimeout;
      WriteTimeout := DefaultWriteTimeout;
      Handler := None;
    }

    /**
      Runs option `o` on this server, as calling the closure does: a single
      field option assigns its one field, and `WithTimeouts` runs the read
      and then the write option.
     */
    method Apply(o: ServerOption<H>)
      modifies this
      ensures State() == ApplyTo(o, old(State()))
      decreases o.Depth()
    {
      match o
      case WithReadTimeout(d) => ReadTimeout := d;
      case WithWriteTimeout(d) => WriteTimeout := d;
      case WithAddress(a) => Addr := a;
      case WithHandler(h) => Handler := h;
      case WithTimeouts(r, w) =>
        Apply(WithReadTimeout(r));
        Apply(WithWriteTimeout(w));
    }
  }

  /**
    Allocates a server holding the defaults and runs every option on it, in
    the order given; the fields end up as `Build(opts)` describes.
   */
  method NewServer<H>(opts: seq<ServerOption<H>>) returns (srv: Server<H>)
    ensures fresh(srv)
    ensures srv.State() == Build(opts)
  {
    srv := new Server();
    for i := 0 to |opts|
      invariant srv.State() == Build(opts[..i])
    {
      assert opts[..i + 1][..i] == opts[..i];
      srv.Apply(opts[i]);
    }
    assert opts[..|opts|] == opts;
  }

  /**
    The construction step of the program's entry point; serving on the
    resulting server is not part of this model.
   */
  method BootstrapServer<H>(mux: H) returns (srv: Server<H>)
    ensures fresh(srv)
    ensures srv.Addr == ":8099" && srv.Handler == Some(mux)
    ensures srv.ReadTimeout == 15 * Second && srv.WriteTimeout == 15 * Second
  {
    srv := NewServer(BootstrapOptions(mux));
    BootstrapConfig(mux);
  }
}
