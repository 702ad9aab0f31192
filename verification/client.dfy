/*
 * Transport-agnostic settings of the storage client and the options that
 * configure them.
 *
 * G stands for the element type of the low-level call options handed to the
 * invoker (a gax call option) and C for the element type of the transport
 * construction options (a client option); both belong to other packages and
 * are opaque here.
 */
module Storage {

  /** A retry policy. Its contents belong to the retry machinery; settings only
      refer to one, and several settings may share it. */
  class RetryConfig {}

  /** The four fields of a settings record; each option writes exactly one. */
  datatype Field = RetryField | GaxField | IdempotentField | ClientOptionField

  /** The value held by a settings object at one moment. */
  datatype SettingsValue<G, C> = SettingsValue(
    retry: RetryConfig?,
    gax: seq<G>,
    idempotent: bool,
    clientOption: seq<C>)

  /** The zero value of a settings record: no retry policy, no call options,
      not idempotent, no client options. */
  function ZeroSettings<G, C>(): SettingsValue<G, C>
  {
    SettingsValue(null, [], false, [])
  }

  /** `a` and `b` hold the same value in field `f`. */
  ghost predicate SameField<G, C>(a: SettingsValue<G, C>, b: SettingsValue<G, C>, f: Field)
  {
    && (f == RetryField ==> a.retry == b.retry)
    && (f == GaxField ==> a.gax == b.gax)
    && (f == IdempotentField ==> a.idempotent == b.idempotent)
    && (f == ClientOptionField ==> a.clientOption == b.clientOption)
  }

  /** Two settings values that agree on every field are equal. */
  lemma {:induction false} FieldsDetermineValue<G, C>(a: SettingsValue<G, C>, b: SettingsValue<G, C>)
    requires forall f :: SameField(a, b, f)
    ensures a == b
  {
    assert SameField(a, b, RetryField) && SameField(a, b, GaxField);
    assert SameField(a, b, IdempotentField) && SameField(a, b, ClientOptionField);
  }

  /** A storage option: a single configuration write onto a settings record.
      The constructors are the four concrete option kinds, each built by its
      own constructor function in the client package. */
  datatype StorageOption<G, C> =
    | GaxOption(callOpts: seq<G>)
    | RetryOption(rc: RetryConfig?)
    | IdempotentOption(idempotency: bool)
    | ClientOption(clientOpts: seq<C>)
  {
    /** The one field this option writes. */
    function Target(): Field
    {
      match this
      case GaxOption(_) => GaxField
      case RetryOption(_) => RetryField
      case IdempotentOption(_) => IdempotentField
      case ClientOption(_) => ClientOptionField
    }

    /** `st` holds this option's payload in this option's field. */
    ghost predicate Holds(st: SettingsValue<G, C>)
    {
      match this
      case GaxOption(o) => st.gax == o
      case RetryOption(rc) => st.retry == rc
      case IdempotentOption(i) => st.idempotent == i
      case ClientOption(o) => st.clientOption == o
    }

    /** The settings value after this option is applied to `st`: the target
        field carries the payload, and the three others are those of `st`. */
    function ApplyTo(st: SettingsValue<G, C>): (r: SettingsValue<G, C>)
      ensures Holds(r)
      ensures forall f :: f != Target() ==> SameField(r, st, f)
    {
      match this
      case GaxOption(o) => st.(gax := o)
      case RetryOption(rc) => st.(retry := rc)
      case IdempotentOption(i) => st.(idempotent := i)
      case ClientOption(o) => st.(clientOption := o)
    }

    /** Writes this option's payload into its field of `s`, replacing the old
        value wholesale. */
    method Apply(s: Settings<G, C>)
      modifies s
      ensures s.Value() == ApplyTo(old(s.Value()))
    {
      match this
      case GaxOption(o) => s.gax := o;
      case RetryOption(rc) => s.retry := rc;
      case IdempotentOption(i) => s.idempotent := i;
      case ClientOption(o) => s.clientOption := o;
    }
  }

  /** An option's write does not depend on what the settings held before:
      applied to any two values, the written field ends up the same. */
  lemma ApplyIgnoresPrior<G, C>(o: StorageOption<G, C>, a: SettingsValue<G, C>, b: SettingsValue<G, C>)
    ensures SameField(o.ApplyTo(a), o.ApplyTo(b), o.Target())
  {
  }

  /** Applying the same option twice in a row is the same as applying it once. */
  lemma ApplyIdempotent<G, C>(o: StorageOption<G, C>, st: SettingsValue<G, C>)
    ensures o.ApplyTo(o.ApplyTo(st)) == o.ApplyTo(st)
  {
  }

  /** Two options that write different fields commute; two that write the
      same field leave the value of the later one. */
  lemma ApplyPair<G, C>(o1: StorageOption<G, C>, o2: StorageOption<G, C>, st: SettingsValue<G, C>)
    ensures o1.Target() != o2.Target() ==> o2.ApplyTo(o1.ApplyTo(st)) == o1.ApplyTo(o2.ApplyTo(st))
    ensures o1.Target() == o2.Target() ==> o2.ApplyTo(o1.ApplyTo(st)) == o2.ApplyTo(st)
  {
  }

  /** `opts` holds no option that writes field `f`. */
  ghost predicate NoneWrites<G, C>(opts: seq<StorageOption<G, C>>, f: Field)
  {
    forall i :: 0 <= i < |opts| ==> opts[i].Target() != f
  }

  /** The left fold of the options over `st`, in list order: the value that
      resolving `opts` onto a settings object holding `st` leaves behind.
      A field no option writes keeps its value from `st`. */
  function Resolve<G, C>(st: SettingsValue<G, C>, opts: seq<StorageOption<G, C>>): (r: SettingsValue<G, C>)
    ensures forall f :: NoneWrites(opts, f) ==> SameField(r, st, f)
    decreases |opts|
  {
    if opts == [] then st
    else
      var n := |opts| - 1;
      var prev := Resolve(st, opts[..n]);
      assert forall f :: NoneWrites(opts, f) ==> NoneWrites(opts[..n], f) && SameField(prev, st, f) by {
        assert forall i :: 0 <= i < n ==> opts[..n][i] == opts[i];
      }
      opts[n].ApplyTo(prev)
  }

  /** Index of the last option in `opts` that writes field `f`, or -1 when
      none does: the option whose value wins for that field. */
  function LastWriter<G, C>(opts: seq<StorageOption<G, C>>, f: Field): (k: int)
    ensures -1 <= k < |opts|
    ensures k >= 0 ==> opts[k].Target() == f
    ensures forall j :: k < j < |opts| ==> opts[j].Target() != f
    decreases |opts|
  {
    if opts == [] then -1
    else if opts[|opts| - 1].Target() == f then |opts| - 1
    else LastWriter(opts[..|opts| - 1], f)
  }

  /** A value that holds option `o`'s payload still does after any change
      that leaves `o`'s field alone. */
  lemma HoldsKeptByField<G, C>(o: StorageOption<G, C>, a: SettingsValue<G, C>, b: SettingsValue<G, C>)
    requires o.Holds(a) && SameField(a, b, o.Target())
    ensures o.Holds(b)
  {
  }

  /** Last writer wins, per field: after resolving `opts` onto `st`, each field
      holds the payload of the last option that writes it, and a field that no
      option writes holds its value from `st`. */
  lemma {:induction false} LastWriterWins<G, C>(st: SettingsValue<G, C>, opts: seq<StorageOption<G, C>>, f: Field)
    ensures LastWriter(opts, f) < 0 ==> SameField(Resolve(st, opts), st, f)
    ensures LastWriter(opts, f) >= 0 ==> opts[LastWriter(opts, f)].Holds(Resolve(st, opts))
  {
    if opts != [] {
      var n := |opts| - 1;
      var prefix := opts[..n];
      LastWriterWins(st, prefix, f);
      var before := Resolve(st, prefix);
      var k := LastWriter(opts, f);
      if opts[n].Target() != f {
        assert k == LastWriter(prefix, f);
        if k >= 0 {
          assert prefix[k] == opts[k];
          HoldsKeptByField(opts[k], before, Resolve(st, opts));
        } else {
          assert SameField(Resolve(st, opts), before, f);
        }
      }
    }
  }

  /** Resolving `a + b` is resolving `a` and then `b`. */
  lemma {:induction false} ResolveAppend<G, C>(st: SettingsValue<G, C>, a: seq<StorageOption<G, C>>, b: seq<StorageOption<G, C>>)
    ensures Resolve(st, a + b) == Resolve(Resolve(st, a), b)
    decreases |b|
  {
    if b == [] {
      assert a + b == a;
    } else {
      var n := |b| - 1;
      ResolveAppend(st, a, b[..n]);
      assert (a + b)[..|a + b| - 1] == a + b[..n];
      assert (a + b)[|a + b| - 1] == b[n];
    }
  }

  /** Resolving an option list a second time changes nothing: every field is
      already held by its last writer. */
  lemma {:induction false} ResolveTwice<G, C>(st: SettingsValue<G, C>, opts: seq<StorageOption<G, C>>)
    ensures Resolve(Resolve(st, opts), opts) == Resolve(st, opts)
    ensures Resolve(st, opts + opts) == Resolve(st, opts)
  {
    var once := Resolve(st, opts);
    var twice := Resolve(once, opts);
    forall f ensures SameField(twice, once, f) {
      LastWriterWins(st, opts, f);
      LastWriterWins(once, opts, f);
      var k := LastWriter(opts, f);
      if k >= 0 {
        ApplyIgnoresPrior(opts[k], once, twice);
        HoldsAgree(opts[k], twice, once);
      }
    }
    FieldsDetermineValue(twice, once);
    ResolveAppend(st, opts, opts);
  }

  /** Two values that both hold option `o`'s payload agree on `o`'s field. */
  lemma HoldsAgree<G, C>(o: StorageOption<G, C>, a: SettingsValue<G, C>, b: SettingsValue<G, C>)
    requires o.Holds(a) && o.Holds(b)
    ensures SameField(a, b, o.Target())
  {
  }

  /** An option repeated immediately anywhere in a list has the effect of a
      single occurrence. */
  lemma {:induction false} RepeatedOptionCollapses<G, C>(
    st: SettingsValue<G, C>, pre: seq<StorageOption<G, C>>, o: StorageOption<G, C>, post: seq<StorageOption<G, C>>)
    ensures Resolve(st, pre + [o, o] + post) == Resolve(st, pre + [o] + post)
  {
    var mid := Resolve(st, pre);
    ResolveAppend(st, pre + [o, o], post);
    ResolveAppend(st, pre, [o, o]);
    ResolveAppend(st, pre + [o], post);
    ResolveAppend(st, pre, [o]);
    assert [o, o][..1] == [o];
    ApplyIdempotent(o, mid);
  }

  /** A settings object: the configuration of a client, or of one call. */
  class Settings<G, C> {
    var retry: RetryConfig?
    var gax: seq<G>
    var idempotent: bool
    var clientOption: seq<C>

    /** The value this object holds. */
    function Value(): SettingsValue<G, C>
      reads this
    {
      SettingsValue(retry, gax, idempotent, clientOption)
    }

    /** A fresh settings object holding the zero value. */
    constructor ()
      ensures Value() == ZeroSettings()
    {
      retry := null;
      gax := [];
      idempotent := false;
      clientOption := [];
    }

    /** A fresh shallow copy of `other`: the same retry reference and the same
        option sequences. */
    constructor Copy(other: Settings<G, C>)
      ensures Value() == other.Value()
    {
      retry := other.retry;
      gax := other.gax;
      idempotent := other.idempotent;
      clientOption := other.clientOption;
    }
  }

  /** Applies the options to `s` one after the other, in list order. */
  method ResolveOptions<G, C>(s: Settings<G, C>, opts: seq<StorageOption<G, C>>)
    modifies s
    ensures s.Value() == Resolve(old(s.Value()), opts)
  {
    for i := 0 to |opts|
      invariant s.Value() == Resolve(old(s.Value()), opts[..i])
    {
      opts[i].Apply(s);
      assert opts[..i + 1][..i] == opts[..i];
    }
    assert opts[..|opts|] == opts;
  }

  /** A fresh settings object: the options resolved onto the zero value. */
  method InitSettings<G, C>(opts: seq<StorageOption<G, C>>) returns (s: Settings<G, C>)
    ensures fresh(s)
    ensures s.Value() == Resolve(ZeroSettings(), opts)
  {
    s := new Settings();
    ResolveOptions(s, opts);
  }

  /** The settings of one call: absent when there are no defaults; otherwise a
      fresh copy of the defaults with the call's options resolved onto it.
      The defaults themselves are never written. */
  method CallSettings<G, C>(defaults: Settings?<G, C>, opts: seq<StorageOption<G, C>>) returns (cs: Settings?<G, C>)
    ensures defaults == null <==> cs == null
    ensures cs != null ==> fresh(cs) && cs.Value() == Resolve(defaults.Value(), opts)
    ensures defaults != null ==> unchanged(defaults)
  {
    if defaults == null {
      return null;
    }
    var copy := new Settings.Copy(defaults);
    ResolveOptions(copy, opts);
    cs := copy;
  }

  /** Two calls made one after the other against the same defaults each see
      only their own options, and the defaults keep their value throughout. */
  method CallsDoNotInterfere<G, C>(defaults: Settings<G, C>, opts1: seq<StorageOption<G, C>>, opts2: seq<StorageOption<G, C>>)
    returns (cs1: Settings<G, C>, cs2: Settings<G, C>)
    ensures fresh(cs1) && fresh(cs2) && cs1 != cs2
    ensures cs1.Value() == Resolve(defaults.Value(), opts1)
    ensures cs2.Value() == Resolve(defaults.Value(), opts2)
    ensures unchanged(defaults)
  {
    var a := CallSettings(defaults, opts1);
    var b := CallSettings(defaults, opts2);
    cs1, cs2 := a, b;
  }
}
