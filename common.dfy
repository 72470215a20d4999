/** Shared vocabulary of the screens: optional values, the toast record every
    screen keeps, JavaScript string truthiness, find-first-by-id, order-preserving
    subsequences and the decimal rendering used in generated ids. */
module Common {

  datatype Option<+T> = None | Some(value: T)

  /** A non-empty string is truthy in JavaScript; `if (s)` and `!s` test this. */
  predicate Filled(s: string) {
    |s| > 0
  }

  // ---------------------------------------------------------------------------
  // Toast notifications
  // ---------------------------------------------------------------------------

  datatype ToastKind = Success | Error | Info

  /** The three toast state variables of a screen, plus whether a hide step has
      been scheduled for them (showToast schedules one; the detail screens set the
      three fields directly and schedule none). */
  datatype Toast = Toast(message: string, kind: ToastKind, visible: bool, autoHide: bool)
  {
    /** The scheduled hide step firing: a toast with a pending hide becomes
        invisible; one without a pending hide stays as it is. */
    function Expired(): (t: Toast)
      ensures t.message == message && t.kind == kind && !t.autoHide
      ensures t.visible <==> visible && !autoHide
    {
      if autoHide then this.(visible := false, autoHide := false) else this
    }
  }

  /** The initial toast state: empty message, kind "info", hidden. */
  const InitialToast := Toast("", Info, false, false)

  /** The effect of showToast(message, kind): the toast is on screen with that
      message and kind, and its scheduled hide step takes it off again. */
  function Shown(message: string, kind: ToastKind): (t: Toast)
    ensures t.visible && t.message == message && t.kind == kind
    ensures !t.Expired().visible && t.Expired().message == message
  {
    Toast(message, kind, true, true)
  }

  /** The detail screens' not-found branch: the three setters and no timer. The
      toast becomes visible with the message and kind; whether a hide step is
      pending is left as it was, so without one the timer event never hides it. */
  function Raised(t0: Toast, message: string, kind: ToastKind): (t: Toast)
    ensures t.visible && t.message == message && t.kind == kind && t.autoHide == t0.autoHide
    ensures !t0.autoHide ==> t.Expired() == t
  {
    t0.(message := message, kind := kind, visible := true)
  }

  // ---------------------------------------------------------------------------
  // What a details screen renders
  // ---------------------------------------------------------------------------

  /** A details screen renders the loading view while no record is set (an early
      return, with no toast component), otherwise the record together with the
      toast component. */
  datatype DetailView<T> = Loading | Showing(record: T, toast: Toast)
  {
    /** The toast message on screen, if any. */
    function ToastOnScreen(): Option<string> {
      if Showing? && toast.visible then Some(toast.message) else None
    }
  }

  function DetailViewOf<T>(record: Option<T>, t: Toast): (v: DetailView<T>)
    ensures v.Loading? <==> record.None?
    ensures v.Showing? ==> v.record == record.value && v.toast == t
    ensures v.ToastOnScreen().Some? <==> record.Some? && t.visible
  {
    if record.None? then Loading else Showing(record.value, t)
  }

  /** At the render of a miss, the not-found toast is on screen only over a
      record an earlier lookup found; with no record set, the user sees the
      loading view alone. */
  lemma NotFoundShownOnlyOverRecord<T>(record: Option<T>, t: Toast, message: string)
    ensures DetailViewOf(record, Raised(t, message, Error)).ToastOnScreen() ==
            if record.Some? then Some(message) else None
  {
  }

  /** A miss followed by a hit: the hit sets the record and leaves the toast
      state as it was, so the not-found message is rendered over the record
      found; with no hide pending, a timer event does not take it away. */
  lemma NotFoundShownOverLaterHit<T>(t: Toast, message: string, r: T)
    requires !t.autoHide
    ensures DetailViewOf(Some(r), Raised(t, message, Error)).ToastOnScreen() == Some(message)
    ensures DetailViewOf(Some(r), Raised(t, message, Error).Expired()).ToastOnScreen() == Some(message)
  {
  }

  // ---------------------------------------------------------------------------
  // Array.prototype.find over an id key
  // ---------------------------------------------------------------------------

  /** The first element of `s` whose key equals `id`, or None. */
  function FindFirst<T>(s: seq<T>, key: T -> string, id: string): (r: Option<T>)
    ensures r.None? <==> forall i :: 0 <= i < |s| ==> key(s[i]) != id
    ensures r.Some? ==> exists i :: 0 <= i < |s| && s[i] == r.value && key(s[i]) == id &&
                                   forall j :: 0 <= j < i ==> key(s[j]) != id
  {
    if s == [] then None
    else if key(s[0]) == id then Some(s[0])
    else
      var r := FindFirst(s[1..], key, id);
      assert forall i :: 1 <= i < |s| ==> s[i] == s[1..][i - 1];
      if r.Some? then
        ghost var i :| 0 <= i < |s[1..]| && s[1..][i] == r.value && key(s[1..][i]) == id &&
                       forall j :: 0 <= j < i ==> key(s[1..][j]) != id;
        assert s[i + 1] == r.value && key(s[i + 1]) == id;
        assert forall j :: 0 <= j < i + 1 ==> key(s[j]) != id by {
          forall j | 0 <= j < i + 1 ensures key(s[j]) != id {
            if j > 0 { assert s[j] == s[1..][j - 1]; }
          }
        }
        r
      else
        r
  }

  /** A route parameter looked up by id: an absent parameter matches nothing,
      a present one finds the first element with that id. */
  function FindByRouteId<T>(s: seq<T>, key: T -> string, id: Option<string>): (r: Option<T>)
    ensures r.None? <==> id.None? || forall i :: 0 <= i < |s| ==> key(s[i]) != id.value
    ensures r.Some? ==> exists i :: 0 <= i < |s| && s[i] == r.value && key(s[i]) == id.value &&
                                   forall j :: 0 <= j < i ==> key(s[j]) != id.value
  {
    if id.None? then None else FindFirst(s, key, id.value)
  }

  // ---------------------------------------------------------------------------
  // Order-preserving subsequences
  // ---------------------------------------------------------------------------

  /** `r` can be obtained from `s` by deleting elements, keeping the order. */
  predicate IsSubseq<T(==)>(r: seq<T>, s: seq<T>)
    decreases |s|
  {
    if r == [] then true
    else if s == [] then false
    else (r[0] == s[0] && IsSubseq(r[1..], s[1..])) || IsSubseq(r, s[1..])
  }

  lemma {:induction false} SubseqRefl<T>(s: seq<T>)
    ensures IsSubseq(s, s)
    decreases |s|
  {
    if s != [] { SubseqRefl(s[1..]); }
  }

  lemma {:induction false} SubseqLength<T>(r: seq<T>, s: seq<T>)
    requires IsSubseq(r, s)
    ensures |r| <= |s|
    decreases |s|
  {
    if r != [] {
      if r[0] == s[0] && IsSubseq(r[1..], s[1..]) { SubseqLength(r[1..], s[1..]); }
      else { SubseqLength(r, s[1..]); }
    }
  }

  /** Every element of a subsequence occurs in the sequence it came from. */
  lemma {:induction false} SubseqMembers<T>(r: seq<T>, s: seq<T>, x: T)
    requires IsSubseq(r, s) && x in r
    ensures x in s
    decreases |s|
  {
    if r[0] == s[0] && IsSubseq(r[1..], s[1..]) {
      if x != r[0] { SubseqMembers(r[1..], s[1..], x); }
    } else {
      SubseqMembers(r, s[1..], x);
    }
  }

  // ---------------------------------------------------------------------------
  // Decimal rendering of naturals (template-literal interpolation of a number)
  // ---------------------------------------------------------------------------

  predicate IsDigit(c: char) {
    '0' <= c <= '9'
  }

  function DigitChar(d: nat): char
    requires d < 10
  {
    "0123456789"[d]
  }

  function DigitValue(c: char): nat
    requires IsDigit(c)
  {
    (c as int - '0' as int) as nat
  }

  /** The decimal digits of `n`, most significant first, without leading zeros. */
  function DecimalString(n: nat): (s: string)
    ensures |s| > 0 && forall i :: 0 <= i < |s| ==> IsDigit(s[i])
    ensures s[0] == '0' ==> n == 0
  {
    if n < 10 then [DigitChar(n)] else DecimalString(n / 10) + [DigitChar(n % 10)]
  }

  /** The number an all-digit string denotes. */
  function ParseDecimal(s: string): nat
    requires forall i :: 0 <= i < |s| ==> IsDigit(s[i])
  {
    if s == [] then 0 else ParseDecimal(s[..|s| - 1]) * 10 + DigitValue(s[|s| - 1])
  }

  /** Reading back the decimal rendering gives the number. */
  lemma {:induction false} DecimalRoundTrip(n: nat)
    ensures ParseDecimal(DecimalString(n)) == n
  {
    var s := DecimalString(n);
    if n < 10 {
      assert s[..|s| - 1] == [];
    } else {
      DecimalRoundTrip(n / 10);
      assert s[..|s| - 1] == DecimalString(n / 10);
    }
  }

  /** Distinct numbers render as distinct strings. */
  lemma DecimalInjective(m: nat, n: nat)
    requires m != n
    ensures DecimalString(m) != DecimalString(n)
  {
    DecimalRoundTrip(m);
    DecimalRoundTrip(n);
  }
}
