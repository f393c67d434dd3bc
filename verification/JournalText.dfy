/** The text of the journal file, as `JSON.stringify(journal, null, 2)` and a newline make it. */
module JournalText {
  import opened Results
  import opened JournalModel
  import opened JournalSize

  // ---- Printing ---------------------------------------------------------------------------------

  function Spaces(n: nat): (s: string)
    ensures |s| == n
  {
    if n == 0 then "" else Spaces(n - 1) + " "
  }

  function Decimal(n: nat): string {
    if n < 10 then ["0123456789"[n]] else Decimal(n / 10) + ["0123456789"[n % 10]]
  }

  function Text(s: string): string { "\"" + s + "\"" }

  /** The parts with a comma and a line end between them. */
  function Joined(parts: seq<string>): string {
    if parts == [] then ""
    else if |parts| == 1 then parts[0]
    else Joined(parts[..|parts| - 1]) + ",\n" + parts[|parts| - 1]
  }

  type Property = (string, string)

  function Properties(properties: seq<Property>, indent: nat): (r: seq<string>)
    ensures |r| == |properties|
  {
    if properties == [] then []
    else
      var last := properties[|properties| - 1];
      Properties(properties[..|properties| - 1], indent) + [Spaces(indent) + Text(last.0) + ": " + last.1]
  }

  /** An object whose braces stand at this indentation. */
  function Object(properties: seq<Property>, indent: nat): string {
    if properties == [] then "{}"
    else "{\n" + Joined(Properties(properties, indent + 2)) + "\n" + Spaces(indent) + "}"
  }

  function Indented(items: seq<string>, indent: nat): (r: seq<string>)
    ensures |r| == |items|
  {
    if items == [] then []
    else Indented(items[..|items| - 1], indent) + [Spaces(indent) + items[|items| - 1]]
  }

  function Array(items: seq<string>, indent: nat): string {
    if items == [] then "[]" else "[\n" + Joined(Indented(items, indent + 2)) + "\n" + Spaces(indent) + "]"
  }

  // ---- The journal ------------------------------------------------------------------------------

  /** How identifiers and digests are written. */
  datatype Spelling = Spelling(
    intent: IntentId -> string, request: RequestFingerprint -> string, quote: QuoteFingerprint -> string,
    feesID: nat -> string, hash: Hash -> string, nullifier: Nullifier -> string, signer: EvmAddress -> string,
    address: RailgunAddress -> string)

  /** Intent ids are a prefix of three and thirty-two hexadecimal digits, digests are sixty-four such digits, hashes and
      addresses of the chain have the prefix 0x, and RAILGUN addresses the length that validation admits. */
  ghost predicate Spelled(w: Spelling) {
    && (forall x :: |w.intent(x)| == 35) && (forall x :: |w.request(x)| == 64) && (forall x :: |w.quote(x)| == 64)
    && (forall x :: |w.feesID(x)| == 64) && (forall x :: |w.hash(x)| == 66) && (forall x :: |w.nullifier(x)| == 66)
    && (forall x :: |w.signer(x)| == 42) && (forall x :: |w.address(x)| == ADDRESS_LENGTH)
  }

  /** A property that is only there if it has a value. */
  function Perhaps(key: string, value: Option<string>): seq<Property> {
    if value.Some? then [(key, value.value)] else []
  }

  function Written<T>(value: Option<T>, write: T -> string): Option<string> {
    if value.Some? then Some(write(value.value)) else None
  }

  function Offered(a: Attempt, w: Spelling): seq<Property> {
    [("broadcasterRailgunAddress", Text(w.address(a.broadcaster))),
     ("broadcasterQuoteFingerprint", Text(w.quote(a.quote))),
     ("broadcasterFeesIDFingerprint", Text(w.feesID(a.feesID))),
     ("broadcasterFeeAmountAtomic", Text(Decimal(a.fee))),
     ("outcome", Text(OutcomeText(a.outcome)))]
  }

  function Refusal(a: Attempt): Option<string> {
    if a.outcome.Rejected? then Some(Text(RejectionText(a.outcome.code))) else None
  }

  function Doubt(a: Attempt): Option<string> {
    if a.outcome.Ambiguous? then Some(Text(AmbiguityText(a.outcome.ambiguity))) else None
  }

  function Stamps(a: Attempt): seq<Property> {
    [("createdAt", Decimal(a.createdAt)), ("updatedAt", Decimal(a.updatedAt))]
  }

  function AttemptText(a: Attempt, w: Spelling): string {
    Object(Offered(a, w) + Perhaps("rejectionCode", Refusal(a)) + Perhaps("ambiguityCode", Doubt(a)) + Stamps(a), 8)
  }

  function AttemptTexts(attempts: seq<Attempt>, w: Spelling): (r: seq<string>)
    ensures |r| == |attempts|
  {
    if attempts == [] then []
    else AttemptTexts(attempts[..|attempts| - 1], w) + [AttemptText(attempts[|attempts| - 1], w)]
  }

  function CodeTexts(codes: seq<AmbiguityCode>): (r: seq<string>)
    ensures |r| == |codes|
  {
    if codes == [] then [] else CodeTexts(codes[..|codes| - 1]) + [Text(AmbiguityText(codes[|codes| - 1]))]
  }

  function NullifierTexts(ns: seq<Nullifier>, w: Spelling): (r: seq<string>)
    ensures |r| == |ns|
  {
    if ns == [] then [] else NullifierTexts(ns[..|ns| - 1], w) + [Text(w.nullifier(ns[|ns| - 1]))]
  }

  /** The properties of a record in the order of the schema. */
  function Identifying(r: Record, w: Spelling): seq<Property> {
    [("intentId", Text(w.intent(r.intentId))), ("requestFingerprint", Text(w.request(r.fingerprint))),
     ("submissionMode", Text(ModeText(r.mode)))]
    + Perhaps("selfSigner", Written(r.selfSigner, (x: EvmAddress) => Text(w.signer(x))))
    + Perhaps("payerRailgunAddress", Written(r.payer, (x: RailgunAddress) => Text(w.address(x))))
    + Perhaps("broadcasterRailgunAddress", Written(r.broadcaster, (x: RailgunAddress) => Text(w.address(x))))
    + Perhaps("broadcasterQuoteFingerprint", Written(r.quote, (x: QuoteFingerprint) => Text(w.quote(x))))
    + Perhaps("broadcasterFeesIDFingerprint", Written(r.feesID, (x: nat) => Text(w.feesID(x))))
    + Perhaps("broadcasterFeeAmountAtomic", Written(r.fee, (x: nat) => Text(Decimal(x))))
  }

  function Histories(r: Record, w: Spelling): seq<Property> {
    Perhaps("nullifiers", Written(r.nullifiers, (x: seq<Nullifier>) => Array(NullifierTexts(x, w), 6)))
    + Perhaps("broadcasterRetryAttempts", Written(r.retries, (x: seq<Attempt>) => Array(AttemptTexts(x, w), 6)))
    + Perhaps("broadcasterAmbiguityCodes", Written(r.ambiguity, (x: seq<AmbiguityCode>) => Array(CodeTexts(x), 6)))
    + Perhaps("reportedTransactionHash", Written(r.reported, (x: Hash) => Text(w.hash(x))))
    + Perhaps("rejectionCode", Written(r.rejection, (x: RejectionCode) => Text(RejectionText(x))))
  }

  function Progressing(r: Record, w: Spelling): seq<Property> {
    Histories(r, w)
    + [("status", Text(StatusText(r.status))), ("createdAt", Decimal(r.createdAt)), ("updatedAt", Decimal(r.updatedAt))]
    + Perhaps("nonce", Written(r.nonce, (x: nat) => Decimal(x)))
    + Perhaps("transactionHash", Written(r.hash, (x: Hash) => Text(w.hash(x))))
    + Perhaps("blockNumber", Written(r.blockNumber, (x: nat) => Decimal(x)))
  }

  function RecordText(r: Record, w: Spelling): string { Object(Identifying(r, w) + Progressing(r, w), 4) }

  function RecordTexts(j: Journal, w: Spelling): (r: seq<string>)
    ensures |r| == |j|
  {
    if j == [] then [] else RecordTexts(j[..|j| - 1], w) + [RecordText(j[|j| - 1], w)]
  }

  function FileText(j: Journal, w: Spelling): string {
    Object([("schemaVersion", "1"), ("records", Array(RecordTexts(j, w), 2))], 0) + "\n"
  }

  // ---- Its length -------------------------------------------------------------------------------

  lemma {:induction false} DecimalLength(n: nat)
    ensures |Decimal(n)| == Digits(n)
  {
    if n >= 10 { DecimalLength(n / 10); }
  }

  function Total(parts: seq<string>): nat {
    if parts == [] then 0 else Total(parts[..|parts| - 1]) + |parts[|parts| - 1]|
  }

  lemma {:induction false} JoinedLength(parts: seq<string>)
    ensures |Joined(parts)| == Total(parts) + if parts == [] then 0 else 2 * (|parts| - 1)
  {
    if |parts| == 1 {
      assert parts[..0] == [] && Total(parts[..0]) == 0;
    } else if |parts| > 1 {
      JoinedLength(parts[..|parts| - 1]);
    }
  }

  /** The lines of some properties, each with its comma and line end. */
  function LinesSize(properties: seq<Property>, indent: nat): nat {
    if properties == [] then 0
    else
      var last := properties[|properties| - 1];
      LinesSize(properties[..|properties| - 1], indent) + Line(indent, last.0, |last.1|)
  }

  lemma {:induction false} PropertiesLength(properties: seq<Property>, indent: nat)
    ensures Total(Properties(properties, indent)) + 2 * |properties| == LinesSize(properties, indent)
  {
    if properties != [] {
      var init := properties[..|properties| - 1];
      PropertiesLength(init, indent);
      var all := Properties(properties, indent);
      assert all[..|all| - 1] == Properties(init, indent);
    }
  }

  lemma {:induction false} LinesConcat(a: seq<Property>, b: seq<Property>, indent: nat)
    ensures LinesSize(a + b, indent) == LinesSize(a, indent) + LinesSize(b, indent)
  {
    if b == [] {
      assert a + b == a;
    } else {
      assert (a + b)[..|a + b| - 1] == a + b[..|b| - 1];
      LinesConcat(a, b[..|b| - 1], indent);
    }
  }

  lemma ObjectLength(properties: seq<Property>, indent: nat)
    requires properties != []
    ensures |Object(properties, indent)| == 2 + indent + LinesSize(properties, indent + 2)
  {
    JoinedLength(Properties(properties, indent + 2));
    PropertiesLength(properties, indent + 2);
  }

  lemma {:induction false} IndentedLength(items: seq<string>, indent: nat)
    ensures Total(Indented(items, indent)) == Total(items) + indent * |items|
  {
    if items != [] {
      var init := items[..|items| - 1];
      IndentedLength(init, indent);
      var all := Indented(items, indent);
      assert all[..|all| - 1] == Indented(init, indent);
    }
  }

  lemma Distributes(indent: nat, n: nat)
    ensures (indent + 2) * n + 2 * n == (indent + 4) * n
  {
  }

  lemma ArrayLength(items: seq<string>, indent: nat)
    ensures |Array(items, indent)| == if items == [] then 2 else 2 + indent + (indent + 4) * |items| + Total(items)
  {
    hide Joined, Indented, Total;
    if items != [] {
      JoinedLength(Indented(items, indent + 2));
      IndentedLength(items, indent + 2);
      Distributes(indent, |items|);
    }
  }

  lemma PerhapsLength(key: string, value: Option<string>, indent: nat)
    ensures LinesSize(Perhaps(key, value), indent) == if value.Some? then Line(indent, key, |value.value|) else 0
  {
    if value.Some? { assert [(key, value.value)][..0] == []; }
  }

  lemma OneLine(key: string, value: string, indent: nat)
    ensures LinesSize([(key, value)], indent) == Line(indent, key, |value|)
  {
    assert [(key, value)][..0] == [];
  }

  // ---- The size that the journal is read by -----------------------------------------------------

  lemma {:induction false} NullifiersLength(ns: seq<Nullifier>, w: Spelling)
    requires Spelled(w)
    ensures Total(NullifierTexts(ns, w)) == HASH * |ns|
  {
    if ns != [] {
      NullifiersLength(ns[..|ns| - 1], w);
      var all := NullifierTexts(ns, w);
      assert all[..|all| - 1] == NullifierTexts(ns[..|ns| - 1], w);
    }
  }

  lemma {:induction false} CodesLength(codes: seq<AmbiguityCode>)
    ensures Total(CodeTexts(codes)) == CodesSize(codes)
  {
    if codes != [] {
      CodesLength(codes[..|codes| - 1]);
      var all := CodeTexts(codes);
      hide AmbiguityText;
      assert all[..|all| - 1] == CodeTexts(codes[..|codes| - 1]);
    }
  }

  lemma OfferedLength(a: Attempt, w: Spelling)
    requires Spelled(w)
    ensures Offered(a, w) != []
    ensures LinesSize(Offered(a, w), 10)
         == Line(10, "broadcasterRailgunAddress", RAILGUN_ADDRESS)
            + Line(10, "broadcasterQuoteFingerprint", FINGERPRINT)
            + Line(10, "broadcasterFeesIDFingerprint", FINGERPRINT)
            + Line(10, "broadcasterFeeAmountAtomic", Quoted(Digits(a.fee)))
            + Line(10, "outcome", Quoted(|OutcomeText(a.outcome)|))
  {
    hide LinesSize, Decimal, Digits, OutcomeText, Line;
    DecimalLength(a.fee);
    FiveLines(Offered(a, w), 10);
  }

  lemma StampsLength(a: Attempt)
    ensures LinesSize(Stamps(a), 10)
         == Line(10, "createdAt", Digits(a.createdAt)) + Line(10, "updatedAt", Digits(a.updatedAt))
  {
    hide LinesSize, Decimal, Digits, Line;
    DecimalLength(a.createdAt);
    DecimalLength(a.updatedAt);
    TwoLines(Stamps(a), 10);
  }

  lemma CodesOfAttempt(a: Attempt)
    ensures LinesSize(Perhaps("rejectionCode", Refusal(a)), 10)
         == if a.outcome.Rejected? then Line(10, "rejectionCode", Quoted(|RejectionText(a.outcome.code)|)) else 0
    ensures LinesSize(Perhaps("ambiguityCode", Doubt(a)), 10)
         == if a.outcome.Ambiguous? then Line(10, "ambiguityCode", Quoted(|AmbiguityText(a.outcome.ambiguity)|)) else 0
  {
    hide LinesSize, Perhaps, RejectionText, AmbiguityText, Line;
    PerhapsLength("rejectionCode", Refusal(a), 10);
    PerhapsLength("ambiguityCode", Doubt(a), 10);
  }

  lemma AttemptLength(a: Attempt, w: Spelling)
    requires Spelled(w)
    ensures |AttemptText(a, w)| == AttemptSize(a)
  {
    hide LinesSize, Offered, Refusal, Doubt, Stamps, Perhaps, Object, Line, Digits;
    hide RejectionText, AmbiguityText, OutcomeText, Spelled;
    OfferedLength(a, w);
    CodesOfAttempt(a);
    StampsLength(a);
    var refusal, doubt := Perhaps("rejectionCode", Refusal(a)), Perhaps("ambiguityCode", Doubt(a));
    LinesConcat(Offered(a, w), refusal, 10);
    LinesConcat(Offered(a, w) + refusal, doubt, 10);
    LinesConcat(Offered(a, w) + refusal + doubt, Stamps(a), 10);
    ObjectLength(Offered(a, w) + refusal + doubt + Stamps(a), 8);
  }

  lemma TwoLines(p: seq<Property>, indent: nat)
    requires |p| == 2
    ensures LinesSize(p, indent) == Line(indent, p[0].0, |p[0].1|) + Line(indent, p[1].0, |p[1].1|)
  {
    assert p == [p[0]] + [p[1]];
    LinesConcat([p[0]], [p[1]], indent);
    OneLine(p[0].0, p[0].1, indent);
    OneLine(p[1].0, p[1].1, indent);
  }

  lemma ThreeLines(p: seq<Property>, indent: nat)
    requires |p| == 3
    ensures LinesSize(p, indent)
         == Line(indent, p[0].0, |p[0].1|) + Line(indent, p[1].0, |p[1].1|) + Line(indent, p[2].0, |p[2].1|)
  {
    assert p == p[..2] + [p[2]];
    LinesConcat(p[..2], [p[2]], indent);
    TwoLines(p[..2], indent);
    OneLine(p[2].0, p[2].1, indent);
  }

  lemma FiveLines(p: seq<Property>, indent: nat)
    requires |p| == 5
    ensures LinesSize(p, indent)
         == Line(indent, p[0].0, |p[0].1|) + Line(indent, p[1].0, |p[1].1|) + Line(indent, p[2].0, |p[2].1|)
            + Line(indent, p[3].0, |p[3].1|) + Line(indent, p[4].0, |p[4].1|)
  {
    assert p == p[..3] + p[3..];
    LinesConcat(p[..3], p[3..], indent);
    ThreeLines(p[..3], indent);
    TwoLines(p[3..], indent);
  }

  lemma {:induction false} AttemptsLength(attempts: seq<Attempt>, w: Spelling)
    requires Spelled(w)
    ensures Total(AttemptTexts(attempts, w)) == AttemptsSize(attempts)
  {
    if attempts != [] {
      AttemptsLength(attempts[..|attempts| - 1], w);
      AttemptLength(attempts[|attempts| - 1], w);
      hide AttemptText, AttemptSize;
      var all := AttemptTexts(attempts, w);
      assert all[..|all| - 1] == AttemptTexts(attempts[..|attempts| - 1], w);
    }
  }

  /** What an optional property adds to the ones before it. */
  lemma WithPerhaps(before: seq<Property>, key: string, value: Option<string>, size: Option<nat>)
    requires value.Some? == size.Some? && (value.Some? ==> |value.value| == size.value)
    ensures LinesSize(before + Perhaps(key, value), 6) == LinesSize(before, 6) + OptionalField(key, size)
  {
    hide LinesSize, Perhaps;
    LinesConcat(before, Perhaps(key, value), 6);
    PerhapsLength(key, value, 6);
  }

  /** The optional properties are as long as their sizes say. */
  lemma WrittenLength<T>(value: Option<T>, write: T -> string, size: nat)
    requires value.Some? ==> |write(value.value)| == size
    ensures var text, room := Written(value, write), If(value, size);
            text.Some? == room.Some? && (text.Some? ==> |text.value| == room.value)
  {
  }

  lemma IdentifyingLength(r: Record, w: Spelling)
    requires Spelled(w)
    ensures LinesSize(Identifying(r, w), 6)
         == Field("intentId", INTENT_ID) + Field("requestFingerprint", FINGERPRINT)
            + Field("submissionMode", Quoted(|ModeText(r.mode)|))
            + OptionalField("selfSigner", If(r.selfSigner, EVM_ADDRESS))
            + OptionalField("payerRailgunAddress", If(r.payer, RAILGUN_ADDRESS))
            + OptionalField("broadcasterRailgunAddress", If(r.broadcaster, RAILGUN_ADDRESS))
            + OptionalField("broadcasterQuoteFingerprint", If(r.quote, FINGERPRINT))
            + OptionalField("broadcasterFeesIDFingerprint", If(r.feesID, FINGERPRINT))
            + OptionalField("broadcasterFeeAmountAtomic",
                If(r.fee, if r.fee.Some? then Quoted(Digits(r.fee.value)) else 0))
  {
    hide LinesSize, Perhaps, Decimal, Digits, ModeText, OptionalField, If, Line;
    var a: seq<Property> := [
      ("intentId", Text(w.intent(r.intentId))), ("requestFingerprint", Text(w.request(r.fingerprint))),
      ("submissionMode", Text(ModeText(r.mode)))];
    var signer := Written(r.selfSigner, (x: EvmAddress) => Text(w.signer(x)));
    var payer := Written(r.payer, (x: RailgunAddress) => Text(w.address(x)));
    var broadcaster := Written(r.broadcaster, (x: RailgunAddress) => Text(w.address(x)));
    var quote := Written(r.quote, (x: QuoteFingerprint) => Text(w.quote(x)));
    var feesID := Written(r.feesID, (x: nat) => Text(w.feesID(x)));
    var fee := Written(r.fee, (x: nat) => Text(Decimal(x)));
    ThreeLines(a, 6);
    if r.fee.Some? { DecimalLength(r.fee.value); }
    var room := if r.fee.Some? then Quoted(Digits(r.fee.value)) else 0;
    WrittenLength(r.selfSigner, (x: EvmAddress) => Text(w.signer(x)), EVM_ADDRESS);
    WrittenLength(r.payer, (x: RailgunAddress) => Text(w.address(x)), RAILGUN_ADDRESS);
    WrittenLength(r.broadcaster, (x: RailgunAddress) => Text(w.address(x)), RAILGUN_ADDRESS);
    WrittenLength(r.quote, (x: QuoteFingerprint) => Text(w.quote(x)), FINGERPRINT);
    WrittenLength(r.feesID, (x: nat) => Text(w.feesID(x)), FINGERPRINT);
    WrittenLength(r.fee, (x: nat) => Text(Decimal(x)), room);
    hide Written, Spelled;
    var b := a + Perhaps("selfSigner", signer);
    var c := b + Perhaps("payerRailgunAddress", payer);
    var d := c + Perhaps("broadcasterRailgunAddress", broadcaster);
    var e := d + Perhaps("broadcasterQuoteFingerprint", quote);
    var f := e + Perhaps("broadcasterFeesIDFingerprint", feesID);
    WithPerhaps(a, "selfSigner", signer, If(r.selfSigner, EVM_ADDRESS));
    WithPerhaps(b, "payerRailgunAddress", payer, If(r.payer, RAILGUN_ADDRESS));
    WithPerhaps(c, "broadcasterRailgunAddress", broadcaster, If(r.broadcaster, RAILGUN_ADDRESS));
    WithPerhaps(d, "broadcasterQuoteFingerprint", quote, If(r.quote, FINGERPRINT));
    WithPerhaps(e, "broadcasterFeesIDFingerprint", feesID, If(r.feesID, FINGERPRINT));
    WithPerhaps(f, "broadcasterFeeAmountAtomic", fee, If(r.fee, room));
    assert Identifying(r, w) == f + Perhaps("broadcasterFeeAmountAtomic", fee);
  }

  lemma ListLength(items: seq<string>, content: nat)
    requires Total(items) == content
    ensures |Array(items, 6)| == ListSize(|items|, content)
  {
    hide Array, Total;
    ArrayLength(items, 6);
  }

  function RejectionSize(r: Record): nat {
    if r.rejection.Some? then Quoted(|RejectionText(r.rejection.value)|) else 0
  }

  lemma HistoriesLength(r: Record, w: Spelling)
    requires Spelled(w)
    ensures LinesSize(Histories(r, w), 6)
         == OptionalField("nullifiers", If(r.nullifiers, ListSize(|r.Nullifiers()|, HASH * |r.Nullifiers()|)))
            + OptionalField("broadcasterRetryAttempts",
                If(r.retries, ListSize(|r.Retries()|, AttemptsSize(r.Retries()))))
            + OptionalField("broadcasterAmbiguityCodes", If(r.ambiguity, ListSize(|r.Codes()|, CodesSize(r.Codes()))))
            + OptionalField("reportedTransactionHash", If(r.reported, HASH))
            + OptionalField("rejectionCode", If(r.rejection, RejectionSize(r)))
  {
    var nullifiers := Written(r.nullifiers, (x: seq<Nullifier>) => Array(NullifierTexts(x, w), 6));
    var retries := Written(r.retries, (x: seq<Attempt>) => Array(AttemptTexts(x, w), 6));
    var codes := Written(r.ambiguity, (x: seq<AmbiguityCode>) => Array(CodeTexts(x), 6));
    var reported := Written(r.reported, (x: Hash) => Text(w.hash(x)));
    var rejection := Written(r.rejection, (x: RejectionCode) => Text(RejectionText(x)));
    var roomN := ListSize(|r.Nullifiers()|, HASH * |r.Nullifiers()|);
    var roomR := ListSize(|r.Retries()|, AttemptsSize(r.Retries()));
    var roomC := ListSize(|r.Codes()|, CodesSize(r.Codes()));
    ListsLength(r, w);
    hide LinesSize, Perhaps, RejectionText, Array, ListSize, AttemptsSize, CodesSize, NullifierTexts, AttemptTexts,
    CodeTexts;
    WrittenLength(r.nullifiers, (x: seq<Nullifier>) => Array(NullifierTexts(x, w), 6), roomN);
    WrittenLength(r.retries, (x: seq<Attempt>) => Array(AttemptTexts(x, w), 6), roomR);
    WrittenLength(r.ambiguity, (x: seq<AmbiguityCode>) => Array(CodeTexts(x), 6), roomC);
    WrittenLength(r.reported, (x: Hash) => Text(w.hash(x)), HASH);
    WrittenLength(r.rejection, (x: RejectionCode) => Text(RejectionText(x)), RejectionSize(r));
    hide OptionalField, Written, If, RejectionSize;
    var none: seq<Property> := [];
    assert LinesSize(none, 6) == 0 by { NoLines(); }
    var a := none + Perhaps("nullifiers", nullifiers);
    var b := a + Perhaps("broadcasterRetryAttempts", retries);
    var c := b + Perhaps("broadcasterAmbiguityCodes", codes);
    var d := c + Perhaps("reportedTransactionHash", reported);
    WithPerhaps(none, "nullifiers", nullifiers, If(r.nullifiers, roomN));
    WithPerhaps(a, "broadcasterRetryAttempts", retries, If(r.retries, roomR));
    WithPerhaps(b, "broadcasterAmbiguityCodes", codes, If(r.ambiguity, roomC));
    WithPerhaps(c, "reportedTransactionHash", reported, If(r.reported, HASH));
    WithPerhaps(d, "rejectionCode", rejection, If(r.rejection, RejectionSize(r)));
    assert a == Perhaps("nullifiers", nullifiers);
    assert Histories(r, w) == d + Perhaps("rejectionCode", rejection);
  }

  lemma NoLines()
    ensures LinesSize([], 6) == 0
  {
  }

  function NonceSize(r: Record): nat { if r.nonce.Some? then Digits(r.nonce.value) else 0 }

  function BlockSize(r: Record): nat { if r.blockNumber.Some? then Digits(r.blockNumber.value) else 0 }

  lemma ProgressingLength(r: Record, w: Spelling)
    requires Spelled(w)
    ensures LinesSize(Progressing(r, w), 6)
         == LinesSize(Histories(r, w), 6)
            + Field("status", Quoted(|StatusText(r.status)|))
            + Field("createdAt", Digits(r.createdAt)) + Field("updatedAt", Digits(r.updatedAt))
            + OptionalField("nonce", If(r.nonce, NonceSize(r)))
            + OptionalField("transactionHash", If(r.hash, HASH))
            + OptionalField("blockNumber", If(r.blockNumber, BlockSize(r)))
  {
    var known: seq<Property> :=
      [("status", Text(StatusText(r.status))), ("createdAt", Decimal(r.createdAt)),
          ("updatedAt", Decimal(r.updatedAt))];
    var nonce := Written(r.nonce, (x: nat) => Decimal(x));
    var hash := Written(r.hash, (x: Hash) => Text(w.hash(x)));
    var block := Written(r.blockNumber, (x: nat) => Decimal(x));
    NumbersLength(r);
    ThreeLines(known, 6);
    WrittenLength(r.nonce, (x: nat) => Decimal(x), NonceSize(r));
    WrittenLength(r.hash, (x: Hash) => Text(w.hash(x)), HASH);
    WrittenLength(r.blockNumber, (x: nat) => Decimal(x), BlockSize(r));
    var e := Histories(r, w);
    assert Progressing(r, w) == e + known + Perhaps("nonce", nonce) + Perhaps("transactionHash", hash)
                                + Perhaps("blockNumber", block);
    hide LinesSize, Perhaps, Decimal, Digits, StatusText, OptionalField, Written, If, Histories, Progressing;
    hide NonceSize, BlockSize;
    var f := e + known;
    var g := f + Perhaps("nonce", nonce);
    var h := g + Perhaps("transactionHash", hash);
    LinesConcat(e, known, 6);
    WithPerhaps(f, "nonce", nonce, If(r.nonce, NonceSize(r)));
    WithPerhaps(g, "transactionHash", hash, If(r.hash, HASH));
    WithPerhaps(h, "blockNumber", block, If(r.blockNumber, BlockSize(r)));
  }

  /** The sizes of the two halves make the size of the record. */
  lemma HalvesAreRecord(r: Record, identifying: nat, histories: nat, progressing: nat)
    requires identifying
          == Field("intentId", INTENT_ID) + Field("requestFingerprint", FINGERPRINT)
             + Field("submissionMode", Quoted(|ModeText(r.mode)|))
             + OptionalField("selfSigner", If(r.selfSigner, EVM_ADDRESS))
             + OptionalField("payerRailgunAddress", If(r.payer, RAILGUN_ADDRESS))
             + OptionalField("broadcasterRailgunAddress", If(r.broadcaster, RAILGUN_ADDRESS))
             + OptionalField("broadcasterQuoteFingerprint", If(r.quote, FINGERPRINT))
             + OptionalField("broadcasterFeesIDFingerprint", If(r.feesID, FINGERPRINT))
             + OptionalField("broadcasterFeeAmountAtomic",
                 If(r.fee, if r.fee.Some? then Quoted(Digits(r.fee.value)) else 0))
    requires histories
          == OptionalField("nullifiers", If(r.nullifiers, ListSize(|r.Nullifiers()|, HASH * |r.Nullifiers()|)))
             + OptionalField("broadcasterRetryAttempts",
                 If(r.retries, ListSize(|r.Retries()|, AttemptsSize(r.Retries()))))
             + OptionalField("broadcasterAmbiguityCodes", If(r.ambiguity, ListSize(|r.Codes()|, CodesSize(r.Codes()))))
             + OptionalField("reportedTransactionHash", If(r.reported, HASH))
             + OptionalField("rejectionCode", If(r.rejection, RejectionSize(r)))
    requires progressing
          == histories + Field("status", Quoted(|StatusText(r.status)|))
             + Field("createdAt", Digits(r.createdAt)) + Field("updatedAt", Digits(r.updatedAt))
             + OptionalField("nonce", If(r.nonce, NonceSize(r))) + OptionalField("transactionHash", If(r.hash, HASH))
             + OptionalField("blockNumber", If(r.blockNumber, BlockSize(r)))
    ensures RecordSize(r) == 6 + identifying + progressing
  {
    hide Digits, ListSize, AttemptsSize, CodesSize, RejectionText, StatusText, ModeText;
  }

  lemma ListsLength(r: Record, w: Spelling)
    requires Spelled(w)
    ensures |Array(NullifierTexts(r.Nullifiers(), w), 6)| == ListSize(|r.Nullifiers()|, HASH * |r.Nullifiers()|)
    ensures |Array(AttemptTexts(r.Retries(), w), 6)| == ListSize(|r.Retries()|, AttemptsSize(r.Retries()))
    ensures |Array(CodeTexts(r.Codes()), 6)| == ListSize(|r.Codes()|, CodesSize(r.Codes()))
  {
    hide Array, ListSize, AttemptsSize, CodesSize, NullifierTexts, AttemptTexts, CodeTexts, Total;
    NullifiersLength(r.Nullifiers(), w);
    AttemptsLength(r.Retries(), w);
    CodesLength(r.Codes());
    ListLength(NullifierTexts(r.Nullifiers(), w), HASH * |r.Nullifiers()|);
    ListLength(AttemptTexts(r.Retries(), w), AttemptsSize(r.Retries()));
    ListLength(CodeTexts(r.Codes()), CodesSize(r.Codes()));
  }

  lemma NumbersLength(r: Record)
    ensures |Decimal(r.createdAt)| == Digits(r.createdAt) && |Decimal(r.updatedAt)| == Digits(r.updatedAt)
    ensures r.nonce.Some? ==> |Decimal(r.nonce.value)| == Digits(r.nonce.value)
    ensures r.blockNumber.Some? ==> |Decimal(r.blockNumber.value)| == Digits(r.blockNumber.value)
  {
    DecimalLength(r.createdAt);
    DecimalLength(r.updatedAt);
    if r.nonce.Some? { DecimalLength(r.nonce.value); }
    if r.blockNumber.Some? { DecimalLength(r.blockNumber.value); }
  }

  lemma RecordLength(r: Record, w: Spelling)
    requires Spelled(w)
    ensures |RecordText(r, w)| == RecordSize(r)
  {
    hide *;
    IdentifyingLength(r, w);
    HistoriesLength(r, w);
    ProgressingLength(r, w);
    LinesConcat(Identifying(r, w), Progressing(r, w), 6);
    IsIdentified(r, w);
    ObjectLength(Identifying(r, w) + Progressing(r, w), 4);
    HalvesAreRecord(r, LinesSize(Identifying(r, w), 6), LinesSize(Histories(r, w), 6), LinesSize(Progressing(r, w), 6));
    IsObject(r, w);
  }

  lemma IsObject(r: Record, w: Spelling)
    ensures RecordText(r, w) == Object(Identifying(r, w) + Progressing(r, w), 4)
  {
    hide Identifying, Progressing, Object;
  }

  lemma IsIdentified(r: Record, w: Spelling)
    ensures Identifying(r, w) != []
  {
  }

  lemma {:induction false} RecordsLength(j: Journal, w: Spelling)
    requires Spelled(w)
    ensures Total(RecordTexts(j, w)) + 6 * |j| == RecordsSize(j)
  {
    if j != [] {
      RecordsLength(j[..|j| - 1], w);
      RecordLength(j[|j| - 1], w);
      hide RecordText, RecordSize;
      var all := RecordTexts(j, w);
      assert all[..|all| - 1] == RecordTexts(j[..|j| - 1], w);
    }
  }

  lemma RecordsArrayLength(j: Journal, w: Spelling)
    requires Spelled(w)
    ensures |Array(RecordTexts(j, w), 2)| == if j == [] then 2 else 4 + RecordsSize(j)
  {
    hide RecordTexts, RecordsSize, Array, Total;
    RecordsLength(j, w);
    ArrayLength(RecordTexts(j, w), 2);
  }

  lemma FileLines(records: string)
    ensures |Object([("schemaVersion", "1"), ("records", records)], 0)| == 39 + |records|
  {
    hide Object, LinesSize;
    var properties: seq<Property> := [("schemaVersion", "1"), ("records", records)];
    TwoLines(properties, 2);
    ObjectLength(properties, 0);
  }

  /** The size by which a journal is readable or not is the length of the text that is written. */
  lemma FileSizeIsLength(j: Journal, w: Spelling)
    requires Spelled(w)
    ensures |FileText(j, w)| == FileSize(j)
  {
    hide Object, Array, RecordTexts, RecordsSize;
    RecordsArrayLength(j, w);
    FileLines(Array(RecordTexts(j, w), 2));
  }

  /** A journal can be read exactly if that text has at most two mebibytes. */
  lemma ReadableIff(j: Journal, w: Spelling)
    requires Spelled(w)
    ensures Readable(j) <==> |FileText(j, w)| <= 2_097_152
  {
    hide FileSize, FileText;
    FileSizeIsLength(j, w);
  }
}
