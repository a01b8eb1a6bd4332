/**
 * The client's payment history: the mock PromptPay payload builder, the
 * status badge colour and label, the overdue total and the rules for
 * what each row shows.
 */
module PaymentHistory {
  import opened Types
  import opened ArrayOps
  import opened Amounts
  import opened Decimal

  /**
   * The fixed head of the payload. It imitates an EMVCo merchant-presented
   * QR code up to tag 63, but the amount follows it directly and no
   * CRC-16 is computed.
   */
  const PromptPayPrefix: string :=
    "00020101021129370016A000000677010111011300668765432105204000053037645802TH630"

  /** The literal that stands where the checksum tag would be. */
  const CrcTag: string := "6304"

  /** `generatePromptPayQR(amount, ref)`, with the amount in satang. */
  function PromptPayPayload(satang: nat, reference: string): (r: string)
    ensures |r| >= |PromptPayPrefix| + |reference|
    ensures r[..|PromptPayPrefix|] == PromptPayPrefix
    ensures r[|r| - |reference|..] == reference
  {
    PromptPayPrefix + Fixed2(satang) + CrcTag + reference
  }

  /**
   * Splits a payload into its amount and reference: after the prefix, the
   * first point ends the baht digits, two satang digits and the tag follow,
   * and the rest is the reference. `None` when the string has another shape.
   */
  function DecodePayload(s: string): Option<(nat, string)>
  {
    if |s| < |PromptPayPrefix| || s[..|PromptPayPrefix|] != PromptPayPrefix then None
    else
      var rest := s[|PromptPayPrefix|..];
      match FindIndex(rest, (c: char) => c == '.')
      case None => None
      case Some(k) =>
        if k + 7 > |rest| || rest[k + 3..k + 7] != CrcTag then None
        else
          match ParseFixed2(rest[..k + 3])
          case None => None
          case Some(satang) => Some((satang, rest[k + 7..]))
  }

  /**
   * The amount and the reference can be read back from every payload, so
   * the payload is determined by, and determines, the pair: equal inputs
   * give equal QR codes, and different inputs give different ones.
   */
  lemma PayloadRoundTrip(satang: nat, reference: string)
    ensures DecodePayload(PromptPayPayload(satang, reference)) == Some((satang, reference))
  {
    var s := PromptPayPayload(satang, reference);
    var f := Fixed2(satang);
    var digits := NatToDecimal(satang / 100);
    var rest := s[|PromptPayPrefix|..];
    assert rest == f + CrcTag + reference;
    assert f == digits + "." + f[|f| - 2..];
    var d := |digits|;
    assert rest[d] == '.';
    var found := FindIndex(rest, (c: char) => c == '.');
    assert found.Some?;
    var k := found.value;
    assert k <= d;
    assert k == d;
    assert rest[..k + 3] == f;
    assert rest[k + 3..k + 7] == CrcTag;
    assert rest[k + 7..] == reference;
    Fixed2RoundTrip(satang);
  }

  /** Different (amount, reference) pairs never share a payload. */
  lemma PayloadInjective(a1: nat, r1: string, a2: nat, r2: string)
    requires PromptPayPayload(a1, r1) == PromptPayPayload(a2, r2)
    ensures a1 == a2 && r1 == r2
  {
    PayloadRoundTrip(a1, r1);
    PayloadRoundTrip(a2, r2);
  }

  /**
   * The layout of a payload: the prefix, the amount with exactly two digits
   * after the point, the tag `6304`, and the reference to the end.
   */
  lemma PayloadAmountSegment(satang: nat, reference: string)
    ensures var s := PromptPayPayload(satang, reference);
            var f := Fixed2(satang);
            |s| == |PromptPayPrefix| + |f| + |CrcTag| + |reference| &&
            s[|PromptPayPrefix|..|PromptPayPrefix| + |f|] == f &&
            f[|f| - 3] == '.' && AllDigits(f[|f| - 2..]) && |f[|f| - 2..]| == 2 &&
            s[|PromptPayPrefix| + |f|..|PromptPayPrefix| + |f| + |CrcTag|] == CrcTag &&
            s[|PromptPayPrefix| + |f| + |CrcTag|..] == reference
  {
    var s := PromptPayPayload(satang, reference);
    var f := Fixed2(satang);
    assert s == PromptPayPrefix + f + CrcTag + reference;
  }

  /** `getStatusColor`: paid green, pending yellow, overdue red. */
  function PaymentStatusColor(status: PaymentStatus): (c: Colour)
    ensures c == Green <==> status == Paid
    ensures c == Yellow <==> status == Pending
    ensures c == Red <==> status == Overdue
  {
    match status
    case Paid => Green
    case Pending => Yellow
    case Overdue => Red
  }

  /** The translation keys `getStatusText` looks up; the table itself is not modelled. */
  datatype TextKey = PaidText | PendingText | OverdueText

  /** `getStatusText`: one label per status, never shared. */
  function PaymentStatusText(status: PaymentStatus): (k: TextKey)
    ensures k == PaidText <==> status == Paid
    ensures k == PendingText <==> status == Pending
    ensures k == OverdueText <==> status == Overdue
  {
    match status
    case Paid => PaidText
    case Pending => PendingText
    case Overdue => OverdueText
  }

  /**
   * `totalOverdue`: the amount owed on overdue payments, never more than
   * the sum of all amounts and zero when no overdue payment is owed money.
   */
  function TotalOverdue(ps: seq<Payment>): (total: nat)
    ensures total <= SumAmounts(ps)
    ensures (forall i :: 0 <= i < |ps| ==> ps[i].status != Overdue || ps[i].amount == 0) ==> total == 0
  {
    AmountWithStatusPositive(ps, Overdue);
    AmountWithStatus(ps, Overdue)
  }

  /**
   * The overdue alert, with its QR payload, appears only when the overdue
   * total is positive. Its reference is `OVERDUE` and the current time in
   * milliseconds, which the caller supplies.
   */
  function OverdueAlert(ps: seq<Payment>, nowMillis: nat): (r: Option<string>)
    ensures r.Some? <==> exists i :: 0 <= i < |ps| && ps[i].status == Overdue && ps[i].amount > 0
    ensures r.Some? ==>
      DecodePayload(r.value) == Some((TotalOverdue(ps), "OVERDUE" + NatToDecimal(nowMillis)))
  {
    AmountWithStatusPositive(ps, Overdue);
    if TotalOverdue(ps) > 0 then
      PayloadRoundTrip(TotalOverdue(ps), "OVERDUE" + NatToDecimal(nowMillis));
      Some(PromptPayPayload(TotalOverdue(ps), "OVERDUE" + NatToDecimal(nowMillis)))
    else None
  }

  /** What one payment row shows. */
  datatype PaymentRow = PaymentRow(
    id: string,
    colour: Colour,
    text: TextKey,
    showPaidDate: bool,
    qr: Option<string>)

  /**
   * The per-row QR code: only pending payments get one, for their own
   * amount, with reference `PAY` followed by the payment id.
   */
  function PaymentQr(p: Payment): (r: Option<string>)
    ensures r.Some? <==> p.status == Pending
    ensures r.Some? ==> DecodePayload(r.value) == Some((p.amount, "PAY" + p.id))
  {
    if p.status == Pending then
      PayloadRoundTrip(p.amount, "PAY" + p.id);
      Some(PromptPayPayload(p.amount, "PAY" + p.id))
    else None
  }

  /**
   * The row of one payment: the status badge and label, the paid date when
   * it is JavaScript-truthy, and a QR code for the payment's own amount and
   * reference when it is pending.
   */
  function PaymentRowOf(p: Payment): (row: PaymentRow)
    ensures row.id == p.id
    ensures row.colour == PaymentStatusColor(p.status) && row.text == PaymentStatusText(p.status)
    ensures row.showPaidDate <==> p.paidDate.Some? && p.paidDate.value != ""
    ensures row.qr.Some? <==> p.status == Pending
    ensures row.qr.Some? ==> DecodePayload(row.qr.value) == Some((p.amount, "PAY" + p.id))
  {
    PaymentRow(p.id, PaymentStatusColor(p.status), PaymentStatusText(p.status),
               Truthy(p.paidDate), PaymentQr(p))
  }

  /**
   * One row per payment, in input order. The paid date is shown whenever
   * the payment carries a non-empty one, whatever its status.
   */
  function PaymentRows(ps: seq<Payment>): (rows: seq<PaymentRow>)
    ensures |rows| == |ps|
    ensures forall i :: 0 <= i < |ps| ==> rows[i].id == ps[i].id
    ensures forall i :: 0 <= i < |ps| ==> rows[i].qr == PaymentQr(ps[i])
    ensures forall i :: 0 <= i < |ps| ==> rows[i].colour == PaymentStatusColor(ps[i].status)
    ensures forall i :: 0 <= i < |ps| ==> rows[i].text == PaymentStatusText(ps[i].status)
    ensures forall i :: 0 <= i < |ps| ==> (rows[i].qr.Some? <==> ps[i].status == Pending)
    ensures forall i :: 0 <= i < |ps| ==> (rows[i].showPaidDate <==> Truthy(ps[i].paidDate))
  {
    seq(|ps|, i requires 0 <= i < |ps| => PaymentRowOf(ps[i]))
  }
}
