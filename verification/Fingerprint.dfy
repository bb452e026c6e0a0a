/** The request fingerprint: what is fed to the hash, and how much of a request it pins down. */
module Fingerprint {
  import opened Sessions

  // ---------------------------------------------------------------- decimals

  function Digit(d: nat): char
    requires d < 10
  {
    '0' + d as char
  }

  function DecimalNat(n: nat): string {
    if n < 10 then [Digit(n)] else DecimalNat(n / 10) + [Digit(n % 10)]
  }

  /** Base ten as fmt prints it. */
  function Decimal(n: int): string {
    if n < 0 then "-" + DecimalNat(-n) else DecimalNat(n)
  }

  function ParseNat(s: string): nat
    requires forall i :: 0 <= i < |s| ==> '0' <= s[i] <= '9'
  {
    if s == "" then 0 else ParseNat(s[..|s| - 1]) * 10 + (s[|s| - 1] - '0') as nat
  }

  lemma {:induction false} DecimalNatParses(n: nat)
    ensures |DecimalNat(n)| > 0
    ensures forall i :: 0 <= i < |DecimalNat(n)| ==> '0' <= DecimalNat(n)[i] <= '9'
    ensures ParseNat(DecimalNat(n)) == n
  {
    if n >= 10 {
      DecimalNatParses(n / 10);
      assert DecimalNat(n)[..|DecimalNat(n)| - 1] == DecimalNat(n / 10);
    } else {
      assert DecimalNat(n)[..0] == "";
    }
  }

  lemma {:induction false} DecimalSign(n: int)
    ensures Decimal(n) != "" && (n < 0 <==> Decimal(n)[0] == '-')
    ensures n < 0 ==> Decimal(n)[1..] == DecimalNat(-n)
  {
    DecimalNatParses(if n < 0 then -n else n);
  }

  lemma {:induction false} DecimalInjective(a: int, b: int)
    requires Decimal(a) == Decimal(b)
    ensures a == b
  {
    DecimalSign(a);
    DecimalSign(b);
    DecimalNatParses(if a < 0 then -a else a);
    DecimalNatParses(if b < 0 then -b else b);
  }

  // ------------------------------------------------------------------ fields

  const FOUR_GIB := 0x1_0000_0000

  /** A length as four big-endian bytes; longer lengths wrap round. */
  function LengthPrefix(length: nat): string {
    var n := length % FOUR_GIB;
    [(n / 0x100_0000) as char, (n / 0x1_0000 % 0x100) as char, (n / 0x100 % 0x100) as char, (n % 0x100) as char]
  }

  function Field(value: string): string {
    LengthPrefix(|value|) + value
  }

  function Stream(fields: seq<string>): string {
    if fields == [] then "" else Field(fields[0]) + Stream(fields[1..])
  }

  function InstanceFields(b: InstanceBinding): seq<string> {
    if !b.enabled then []
    else [Decimal(b.version), b.clusterID, b.namespace, b.notebookName, b.notebookUID, b.podName, b.podUID,
          b.containerName, b.shell]
  }

  function VMFields(b: VMBinding): seq<string> {
    if !b.enabled then []
    else ["vm.console.v1", b.tenantID, b.vmID, Decimal(b.version), b.clusterID, b.namespace, b.vmName, b.vmUID,
          b.vmiName, b.vmiUID, b.namespaceUID]
  }

  function HeadFields(r: Request): seq<string> {
    [r.tenantID, r.subjectID, r.instanceID, r.workloadName, r.workloadKind, r.mode, r.container]
  }

  function ShapeFields(r: Request): seq<string> {
    [if r.tty then "true" else "false", Decimal(r.rows), Decimal(r.cols), r.requestedProtocol]
  }

  function Fields(r: Request): seq<string> {
    HeadFields(r) + r.command + ShapeFields(r) + InstanceFields(r.instanceBinding) + VMFields(r.vmBinding)
  }

  // ------------------------------------------------------------- the method

  /** An incremental hash: it remembers what was written to it. */
  class Hasher {
    var written: string

    constructor ()
      ensures written == ""
    {
      written := "";
    }

    method Write(value: string)
      modifies this
      ensures written == old(written) + Field(value)
    {
      written := written + LengthPrefix(|value|);
      written := written + value;
    }

    method WriteAll(values: seq<string>)
      modifies this
      ensures written == old(written) + Stream(values)
    {
      assert values[..0] == [];
      for i := 0 to |values|
        invariant written == old(written) + Stream(values[..i])
      {
        Write(values[i]);
        StreamAppends(values[..i], values[i]);
        assert values[..i] + [values[i]] == values[..i + 1];
      }
      assert values[..|values|] == values;
    }
  }

  /** Feeds a request to the hash field by field, in the source's order. */
  method FingerprintOf(r: Request, sha256: string -> Digest) returns (digest: Digest)
    ensures digest == sha256(Stream(Fields(r)))
  {
    var h := new Hasher();
    ghost var fed: seq<string> := [];
    hide Stream, Field, HeadFields, ShapeFields, InstanceFields, VMFields;
    h.WriteAll(HeadFields(r));
    fed := HeadFields(r);
    assert h.written == Stream(fed);
    StreamConcat(fed, r.command);
    h.WriteAll(r.command);
    fed := fed + r.command;
    assert h.written == Stream(fed);
    StreamConcat(fed, ShapeFields(r));
    h.WriteAll(ShapeFields(r));
    fed := fed + ShapeFields(r);
    assert h.written == Stream(fed);
    StreamConcat(fed, InstanceFields(r.instanceBinding));
    EmptyStream();
    DisabledFields(r);
    if r.instanceBinding.enabled {
      h.WriteAll(InstanceFields(r.instanceBinding));
    }
    fed := fed + InstanceFields(r.instanceBinding);
    assert h.written == Stream(fed);
    StreamConcat(fed, VMFields(r.vmBinding));
    if r.vmBinding.enabled {
      h.Write("vm.console.v1");
      h.WriteAll(VMFields(r.vmBinding)[1..]);
    }
    fed := fed + VMFields(r.vmBinding);
    assert h.written == Stream(fed);
    digest := sha256(h.written);
  }

  lemma {:induction false} EmptyStream()
    ensures Stream([]) == ""
  {
  }

  lemma {:induction false} DisabledFields(r: Request)
    ensures !r.instanceBinding.enabled ==> InstanceFields(r.instanceBinding) == []
    ensures !r.vmBinding.enabled ==> VMFields(r.vmBinding) == []
    ensures r.vmBinding.enabled ==>
              && VMFields(r.vmBinding) != []
              && Stream(VMFields(r.vmBinding)) == Field("vm.console.v1") + Stream(VMFields(r.vmBinding)[1..])
  {
  }

  lemma {:induction false} StreamSplits(fields: seq<string>)
    requires fields != []
    ensures Stream(fields) == Field(fields[0]) + Stream(fields[1..])
  {
    hide Field;
  }

  lemma {:induction false} StreamConcat(a: seq<string>, b: seq<string>)
    ensures Stream(a + b) == Stream(a) + Stream(b)
  {
    hide Field, Stream;
    if a == [] {
      EmptyStream();
      assert a + b == b && "" + Stream(b) == Stream(b);
    } else {
      assert (a + b)[1..] == a[1..] + b;
      calc {
        Stream(a + b);
        { StreamSplits(a + b); }
        Field(a[0]) + Stream(a[1..] + b);
        { StreamConcat(a[1..], b); }
        Field(a[0]) + (Stream(a[1..]) + Stream(b));
        (Field(a[0]) + Stream(a[1..])) + Stream(b);
        { StreamSplits(a); }
        Stream(a) + Stream(b);
      }
    }
  }

  lemma {:induction false} StreamAppends(a: seq<string>, value: string)
    ensures Stream(a + [value]) == Stream(a) + Field(value)
  {
    StreamConcat(a, [value]);
    assert Stream([value]) == Field(value) + Stream([]);
  }

  // ------------------------------------------------------------ injectivity

  /** Lengths below 2^32 survive the four bytes. */
  lemma {:induction false} LengthPrefixInjective(a: nat, b: nat)
    requires a < FOUR_GIB && b < FOUR_GIB && LengthPrefix(a) == LengthPrefix(b)
    ensures a == b
  {
    FourDigits(a);
    FourDigits(b);
    var pa, pb := LengthPrefix(a), LengthPrefix(b);
    assert pa[0] == pb[0] && pa[1] == pb[1] && pa[2] == pb[2] && pa[3] == pb[3];
  }

  lemma {:induction false} FourDigits(n: nat)
    requires n < FOUR_GIB
    ensures var p := LengthPrefix(n);
            n == p[0] as nat * 0x100_0000 + p[1] as nat * 0x1_0000 + p[2] as nat * 0x100 + p[3] as nat
  {
    assert n % FOUR_GIB == n;
    assert n / 0x1_0000 == n / 0x100_0000 * 0x100 + n / 0x1_0000 % 0x100;
    assert n / 0x100 == n / 0x1_0000 * 0x100 + n / 0x100 % 0x100;
  }

  ghost predicate ShortStrings(fields: seq<string>) {
    forall i :: 0 <= i < |fields| ==> |fields[i]| < FOUR_GIB
  }

  /** Length-prefixed fields can be read back off the stream in only one way. */
  lemma {:induction false} StreamInjective(a: seq<string>, b: seq<string>)
    requires ShortStrings(a) && ShortStrings(b) && Stream(a) == Stream(b)
    ensures a == b
  {
    if a != [] && b != [] {
      var s := Stream(a);
      assert s[..4] == LengthPrefix(|a[0]|) && s[..4] == LengthPrefix(|b[0]|);
      LengthPrefixInjective(|a[0]|, |b[0]|);
      assert s[4..4 + |a[0]|] == a[0] && s[4..4 + |b[0]|] == b[0];
      assert s[4 + |a[0]|..] == Stream(a[1..]) && s[4 + |b[0]|..] == Stream(b[1..]);
      StreamInjective(a[1..], b[1..]);
      assert a == [a[0]] + a[1..] && b == [b[0]] + b[1..];
    }
  }

  predicate SameShape(a: Request, b: Request) {
    && a.instanceBinding.enabled == b.instanceBinding.enabled
    && a.vmBinding.enabled == b.vmBinding.enabled
  }

  const NO_INSTANCE := InstanceBinding(false, 0, "", "", "", "", "", "", "", "")
  const NO_VM := VMBinding(false, "", "", 0, "", "", "", "", "", "", "")

  /** A request without its request ID, its idempotency key and its disabled bindings. */
  function Essence(r: Request): Request {
    r.(requestID := "", idempotencyKey := "",
       instanceBinding := if r.instanceBinding.enabled then r.instanceBinding else NO_INSTANCE,
       vmBinding := if r.vmBinding.enabled then r.vmBinding else NO_VM)
  }

  lemma {:induction false} InstanceFieldsInjective(a: InstanceBinding, b: InstanceBinding)
    requires a.enabled && b.enabled && InstanceFields(a) == InstanceFields(b)
    ensures a == b
  {
    var fa, fb := InstanceFields(a), InstanceFields(b);
    assert forall i :: 0 <= i < 9 ==> fa[i] == fb[i];
    assert fa[0] == fb[0] && fa[1] == fb[1] && fa[2] == fb[2] && fa[3] == fb[3] && fa[4] == fb[4];
    assert fa[5] == fb[5] && fa[6] == fb[6] && fa[7] == fb[7] && fa[8] == fb[8];
    DecimalInjective(a.version, b.version);
  }

  lemma {:induction false} VMFieldsInjective(a: VMBinding, b: VMBinding)
    requires a.enabled && b.enabled && VMFields(a) == VMFields(b)
    ensures a == b
  {
    var fa, fb := VMFields(a), VMFields(b);
    assert fa[1] == fb[1] && fa[2] == fb[2] && fa[3] == fb[3] && fa[4] == fb[4] && fa[5] == fb[5];
    assert fa[6] == fb[6] && fa[7] == fb[7] && fa[8] == fb[8] && fa[9] == fb[9] && fa[10] == fb[10];
    DecimalInjective(a.version, b.version);
  }

  /** With bindings of the same shape, equal fields fall into the same five parts. */
  lemma {:induction false} PartsAgree(a: Request, b: Request)
    requires SameShape(a, b) && Fields(a) == Fields(b)
    ensures HeadFields(a) == HeadFields(b) && a.command == b.command && ShapeFields(a) == ShapeFields(b)
    ensures InstanceFields(a.instanceBinding) == InstanceFields(b.instanceBinding)
    ensures VMFields(a.vmBinding) == VMFields(b.vmBinding)
  {
    FieldParts(a);
    FieldParts(b);
  }

  /** Where the parts of a request lie among its fields. */
  lemma {:induction false} FieldParts(r: Request)
    ensures var f, k := Fields(r), |InstanceFields(r.instanceBinding)| + |VMFields(r.vmBinding)|;
            var n := |f| - k - 4;
            var m := n + 4 + |InstanceFields(r.instanceBinding)|;
            && 7 <= n && m <= |f|
            && f[..7] == HeadFields(r)
            && f[7..n] == r.command
            && f[n..n + 4] == ShapeFields(r)
            && f[n + 4..m] == InstanceFields(r.instanceBinding)
            && f[m..] == VMFields(r.vmBinding)
    ensures |InstanceFields(r.instanceBinding)| == if r.instanceBinding.enabled then 9 else 0
    ensures |VMFields(r.vmBinding)| == if r.vmBinding.enabled then 11 else 0
  {
    assert |HeadFields(r)| == 7 && |ShapeFields(r)| == 4;
    FiveSlices(HeadFields(r), r.command, ShapeFields(r), InstanceFields(r.instanceBinding), VMFields(r.vmBinding));
    hide HeadFields, ShapeFields;
  }

  lemma {:induction false} FiveSlices<T>(a: seq<T>, b: seq<T>, c: seq<T>, d: seq<T>, e: seq<T>)
    ensures var f, i := a + b + c + d + e, |a| + |b|;
            var j := i + |c|;
            var k := j + |d|;
            f[..|a|] == a && f[|a|..i] == b && f[i..j] == c && f[j..k] == d && f[k..] == e
  {
  }

  lemma {:induction false} FieldsInjective(a: Request, b: Request)
    requires SameShape(a, b) && Fields(a) == Fields(b)
    ensures Essence(a) == Essence(b)
  {
    PartsAgree(a, b);
    var ha, hb := HeadFields(a), HeadFields(b);
    assert ha[0] == hb[0] && ha[1] == hb[1] && ha[2] == hb[2] && ha[3] == hb[3];
    assert ha[4] == hb[4] && ha[5] == hb[5] && ha[6] == hb[6];
    var sa, sb := ShapeFields(a), ShapeFields(b);
    assert sa[0] == sb[0] && sa[1] == sb[1] && sa[2] == sb[2] && sa[3] == sb[3];
    assert |"true"| != |"false"|;
    DecimalInjective(a.rows, b.rows);
    DecimalInjective(a.cols, b.cols);
    if a.instanceBinding.enabled {
      InstanceFieldsInjective(a.instanceBinding, b.instanceBinding);
    }
    if a.vmBinding.enabled {
      VMFieldsInjective(a.vmBinding, b.vmBinding);
    }
  }

  /** For requests whose bindings have the same shape, the bytes fed to the hash are equal
      exactly when the requests are, but for request ID, idempotency key and disabled bindings. */
  lemma {:induction false} StreamDeterminesRequest(a: Request, b: Request)
    requires SameShape(a, b) && ShortStrings(Fields(a)) && ShortStrings(Fields(b))
    ensures Stream(Fields(a)) == Stream(Fields(b)) <==> Essence(a) == Essence(b)
  {
    if Stream(Fields(a)) == Stream(Fields(b)) {
      StreamInjective(Fields(a), Fields(b));
      FieldsInjective(a, b);
    }
    if Essence(a) == Essence(b) {
      EssenceDeterminesFields(a, b);
    }
  }

  lemma {:induction false} EssenceDeterminesFields(a: Request, b: Request)
    requires Essence(a) == Essence(b)
    ensures Fields(a) == Fields(b) && SameShape(a, b)
  {
    assert Fields(Essence(a)) == Fields(a);
    assert Fields(Essence(b)) == Fields(b);
    assert Essence(a).instanceBinding.enabled == a.instanceBinding.enabled;
    assert Essence(b).instanceBinding.enabled == b.instanceBinding.enabled;
    assert Essence(a).vmBinding.enabled == a.vmBinding.enabled;
    assert Essence(b).vmBinding.enabled == b.vmBinding.enabled;
  }

  /** Whenever two requests feed the hash the same bytes, they ask for the same thing exactly
      when their bindings have the same shape: the command count is not written. */
  lemma {:induction false} SameBytesSameRequest(a: Request, b: Request)
    requires ShortStrings(Fields(a)) && ShortStrings(Fields(b)) && Stream(Fields(a)) == Stream(Fields(b))
    ensures Essence(a) == Essence(b) <==> SameShape(a, b)
  {
    if SameShape(a, b) {
      StreamDeterminesRequest(a, b);
    }
    if Essence(a) == Essence(b) {
      EssenceDeterminesFields(a, b);
    }
  }
}
