/** The 32-bit state mask of an MFA challenge and the texts it is kept beside. */
module ChallengeMask {
  import opened Text
  import opened Bits

  /** An unsigned 32-bit mask, bit by bit: 1 live, 2 passkey mode, 4 push mode, 8
      approved, 16 denied, 32 passkey session bound. The upper 26 bits have no meaning
      and are carried along. */
  type Rest = n: nat | n < 0x400_0000

  datatype Mask = Mask(live: bool, passkey: bool, push: bool, approved: bool, denied: bool, bound: bool, rest: Rest)

  const ZERO := Mask(false, false, false, false, false, false, 0)

  function Shift(bit: bool, n: nat): nat
  {
    2 * n + if bit then 1 else 0
  }

  function Number(m: Mask): (n: nat)
    ensures n < 0x1_0000_0000
  {
    Shift(m.live, Shift(m.passkey, Shift(m.push, Shift(m.approved, Shift(m.denied, Shift(m.bound, m.rest))))))
  }

  function FromNumber(n: nat): Mask
    requires n < 0x1_0000_0000
  {
    var n1 := n / 2;
    var n2 := n1 / 2;
    var n3 := n2 / 2;
    var n4 := n3 / 2;
    var n5 := n4 / 2;
    Mask(n % 2 == 1, n1 % 2 == 1, n2 % 2 == 1, n3 % 2 == 1, n4 % 2 == 1, n5 % 2 == 1, n5 / 2)
  }

  lemma ShiftBack(bit: bool, n: nat)
    ensures Shift(bit, n) / 2 == n && (Shift(bit, n) % 2 == 1 <==> bit)
  {
  }

  /** Masks and unsigned 32-bit numbers are the same thing. */
  lemma MaskOfNumber(m: Mask)
    ensures FromNumber(Number(m)) == m
  {
    hide Shift;
    var n5 := Shift(m.bound, m.rest);
    var n4 := Shift(m.denied, n5);
    var n3 := Shift(m.approved, n4);
    var n2 := Shift(m.push, n3);
    var n1 := Shift(m.passkey, n2);
    ShiftBack(m.live, n1);
    ShiftBack(m.passkey, n2);
    ShiftBack(m.push, n3);
    ShiftBack(m.approved, n4);
    ShiftBack(m.denied, n5);
    ShiftBack(m.bound, m.rest);
  }

  lemma NumberOfMask(n: nat)
    requires n < 0x1_0000_0000
    ensures Number(FromNumber(n)) == n
  {
  }

  /** Each flag has its digit, from live upwards, and the rest the digits above. */
  lemma NumberBits(m: Mask, i: nat)
    ensures Bit(Number(m), i) <==>
            match i
            case 0 => m.live
            case 1 => m.passkey
            case 2 => m.push
            case 3 => m.approved
            case 4 => m.denied
            case 5 => m.bound
            case _ => Bit(m.rest, i - 6)
  {
    hide Bit;
    var n5 := Shift(m.bound, m.rest);
    var n4 := Shift(m.denied, n5);
    var n3 := Shift(m.approved, n4);
    var n2 := Shift(m.push, n3);
    ShiftedBits(m.live, Shift(m.passkey, n2), i);
    if i >= 1 { ShiftedBits(m.passkey, n2, i - 1); }
    if i >= 2 { ShiftedBits(m.push, n3, i - 2); }
    if i >= 3 { ShiftedBits(m.approved, n4, i - 3); }
    if i >= 4 { ShiftedBits(m.denied, n5, i - 4); }
    if i >= 5 { ShiftedBits(m.bound, m.rest, i - 5); }
  }

  lemma ShiftedBits(bit: bool, n: nat, i: nat)
    ensures Bit(Shift(bit, n), i) <==> if i == 0 then bit else Bit(n, i - 1)
  {
  }

  datatype Mode = TotpOnly | Push | Passkey

  datatype Decision = Pending | Approved | Denied

  function ModeText(mode: Mode): string
  {
    match mode
    case TotpOnly => "totp_only"
    case Push => "push_totp_fallback"
    case Passkey => "passkey_totp_fallback"
  }

  function DecisionText(decision: Decision): string
  {
    match decision
    case Pending => "pending"
    case Approved => "approved"
    case Denied => "denied"
  }

  /** Any other text counts as TOTP only. */
  function ReadMode(text: string): Mode
  {
    var t := Lower(Trim(text));
    if t == ModeText(Push) then Push else if t == ModeText(Passkey) then Passkey else TotpOnly
  }

  /** Any other text counts as pending. */
  function ReadDecision(text: string): Decision
  {
    var t := Lower(Trim(text));
    if t == DecisionText(Approved) then Approved else if t == DecisionText(Denied) then Denied else Pending
  }

  // ---------------------------------------------------------------------------
  // Bits
  // ---------------------------------------------------------------------------

  /** Push wins over passkey, decisions belong to push, and denied wins over approved. */
  function Canonical(mask: Mask, bound: bool): Mask
  {
    var m0 := mask.(live := true);
    var m1 := if m0.push then m0.(passkey := false) else m0;
    var m2 := if !m1.push then m1.(approved := false, denied := false) else m1;
    var m3 := if m2.approved && m2.denied then m2.(approved := false) else m2;
    m3.(bound := bound)
  }

  function NormalizeBits(mask: Mask, mode: Mode, decision: Decision, bound: bool): Mask
  {
    var start := if mask == ZERO then ZERO.(live := true) else mask;
    var moded := start.(push := mode.Push?, passkey := mode.Passkey?);
    var decided := moded.(approved := decision.Approved?, denied := decision.Denied?);
    Canonical(if bound then decided.(bound := true) else decided, bound)
  }

  function ModeBits(mask: Mask): Mode
  {
    if mask.push then Push else if mask.passkey then Passkey else TotpOnly
  }

  function DecisionBits(mask: Mask): Decision
  {
    if mask.denied then Denied else if mask.approved then Approved else Pending
  }

  /** Live, one mode at most, decisions only in push mode and never both, and the bound
      bit exactly when passkey data is present. */
  predicate IsCanonical(mask: Mask, bound: bool)
  {
    && mask.live
    && !(mask.push && mask.passkey)
    && (!mask.push ==> !mask.approved && !mask.denied)
    && !(mask.approved && mask.denied)
    && (mask.bound <==> bound)
  }

  /** Normalising yields a canonical mask that says the mode and, in push mode, the
      decision that were asked for; of its input it keeps the unknown bits alone. */
  lemma NormalizedBits(mask: Mask, mode: Mode, decision: Decision, bound: bool)
    ensures var m := NormalizeBits(mask, mode, decision, bound);
            && IsCanonical(m, bound)
            && ModeBits(m) == mode
            && DecisionBits(m) == (if mode.Push? then decision else Pending)
            && m.rest == mask.rest
  {
  }

  /** The canonical form of any mask keeps its mode, in push mode its decision, and the
      unknown bits. */
  lemma CanonicalForm(mask: Mask, bound: bool)
    ensures var m := Canonical(mask, bound);
            && IsCanonical(m, bound) && ModeBits(m) == ModeBits(mask) && m.rest == mask.rest
            && DecisionBits(m) == if mask.push then DecisionBits(mask) else Pending
  {
  }

  lemma OnlyUnknownBitsMatter(x: Mask, y: Mask, mode: Mode, decision: Decision, bound: bool)
    ensures x.rest == y.rest <==> NormalizeBits(x, mode, decision, bound) == NormalizeBits(y, mode, decision, bound)
  {
  }

  lemma PendingUnlessPush(mask: Mask, bound: bool)
    requires IsCanonical(mask, bound)
    ensures !mask.push ==> DecisionBits(mask) == Pending
  {
  }

  // ---------------------------------------------------------------------------
  // Texts
  // ---------------------------------------------------------------------------

  function Normalize(mask: Mask, mode: string, push: string, passkey: string): Mask
  {
    NormalizeBits(mask, ReadMode(mode), ReadDecision(push), Trim(passkey) != "")
  }

  /** A text that names no push or passkey mode is kept, trimmed and lower-cased. */
  function ModeFrom(mask: Mask, fallback: string): string
  {
    match ModeBits(Canonical(mask, false))
    case Push => ModeText(Push)
    case Passkey => ModeText(Passkey)
    case TotpOnly => if Lower(Trim(fallback)) != "" then Lower(Trim(fallback)) else ModeText(TotpOnly)
  }

  function PushFrom(mask: Mask, fallback: string): string
  {
    match DecisionBits(Canonical(mask, false))
    case Denied => DecisionText(Denied)
    case Approved => DecisionText(Approved)
    case Pending => DecisionText(ReadDecision(fallback))
  }

  /** Normalising gives a canonical mask, and again the same one. */
  lemma NormalizeIdempotent(mask: Mask, mode: string, push: string, passkey: string)
    ensures var m := Normalize(mask, mode, push, passkey);
            && IsCanonical(m, Trim(passkey) != "")
            && Normalize(m, mode, push, passkey) == m
  {
    hide ReadMode, ReadDecision, Trim, NormalizeBits, IsCanonical, ModeBits, DecisionBits;
    var mo, d, b := ReadMode(mode), ReadDecision(push), Trim(passkey) != "";
    NormalizedBits(mask, mo, d, b);
    OnlyUnknownBitsMatter(NormalizeBits(mask, mo, d, b), mask, mo, d, b);
  }

  lemma ReadModeText(mode: Mode)
    ensures ReadMode(ModeText(mode)) == mode
  {
    match mode
    case TotpOnly => assert Lower("totp_only") == "totp_only";
    case Push => assert Lower("push_totp_fallback") == "push_totp_fallback";
    case Passkey => assert Lower("passkey_totp_fallback") == "passkey_totp_fallback";
  }

  lemma ReadDecisionText(decision: Decision)
    ensures ReadDecision(DecisionText(decision)) == decision
  {
    match decision
    case Pending => assert Lower("pending") == "pending";
    case Approved => assert Lower("approved") == "approved";
    case Denied => assert Lower("denied") == "denied";
  }

  lemma FoldedText(text: string)
    ensures Lower(Trim(Lower(Trim(text)))) == Lower(Trim(text))
    ensures ReadMode(Lower(Trim(text))) == ReadMode(text)
  {
    LowerIdempotent(Trim(text));
    assert Trim(Lower(Trim(text))) == Lower(Trim(text));
  }

  // ---------------------------------------------------------------------------
  // Saving and loading
  // ---------------------------------------------------------------------------

  /** What a challenge record keeps of its state. */
  datatype Record = Record(mask: Mask, mode: string, push: string, passkey: string)

  function Save(mask: Mask, mode: string, push: string, passkey: string): Record
  {
    var m := Normalize(mask, mode, push, passkey);
    Record(m, ModeFrom(m, mode), PushFrom(m, push), passkey)
  }

  /** Reading prefers the packed mask; older records keep it in a hash field. */
  function Load(packed: Mask, field: Mask, mode: string, push: string, passkey: string): Record
  {
    var m := Normalize(if packed == ZERO then field else packed, mode, push, passkey);
    Record(m, ModeFrom(m, mode), PushFrom(m, push), passkey)
  }

  /** The record of a saved challenge: the mask decodes to the mode and, in push mode,
      the decision that were asked for. */
  lemma SavedState(mask: Mask, mode: string, push: string, passkey: string)
    ensures var r := Save(mask, mode, push, passkey);
            && r.mask != ZERO
            && IsCanonical(r.mask, Trim(passkey) != "")
            && ModeBits(r.mask) == ReadMode(mode) == ReadMode(r.mode)
            && DecisionBits(r.mask) == (if ReadMode(mode).Push? then ReadDecision(push) else Pending)
            && ReadDecision(r.push) == ReadDecision(push)
  {
    hide ReadMode, ReadDecision, Trim, Lower, NormalizeBits, ModeBits, DecisionBits, Canonical, ModeText,
         DecisionText;
    var mo, d, b := ReadMode(mode), ReadDecision(push), Trim(passkey) != "";
    NormalizedBits(mask, mo, d, b);
    var m := NormalizeBits(mask, mo, d, b);
    CanonicalForm(m, false);
    PendingUnlessPush(m, b);
    ReadModeText(mo);
    ReadDecisionText(d);
    FoldedText(mode);
  }

  /** Loading a saved challenge gives back its mask, mode and push status exactly. */
  lemma LoadAfterSave(mask: Mask, mode: string, push: string, passkey: string, field: Mask)
    ensures var r := Save(mask, mode, push, passkey);
            Load(r.mask, field, r.mode, r.push, r.passkey) == r
  {
    var r := Save(mask, mode, push, passkey);
    SavedState(mask, mode, push, passkey);
    NormalizeIdempotent(mask, mode, push, passkey);
    SameMask(r.mask, mode, push, r.mode, r.push, passkey);
    SameTexts(mask, mode, push, passkey);
    hide *;
  }

  /** A loaded mask says what the texts say; the unknown bits come from the packed mask, or
      from the field if that is zero. */
  lemma LoadedState(packed: Mask, field: Mask, mode: string, push: string, passkey: string)
    ensures var r := Load(packed, field, mode, push, passkey);
            && IsCanonical(r.mask, Trim(passkey) != "") && ModeBits(r.mask) == ReadMode(mode)
            && DecisionBits(r.mask) == (if ReadMode(mode).Push? then ReadDecision(push) else Pending)
            && r.mask.rest == (if packed == ZERO then field.rest else packed.rest)
  {
    hide ReadMode, ReadDecision, Trim, NormalizeBits, IsCanonical, ModeBits, DecisionBits, ModeFrom, PushFrom;
    NormalizedBits(if packed == ZERO then field else packed, ReadMode(mode), ReadDecision(push), Trim(passkey) != "");
  }

  /** The mask depends on the texts only through the mode and decision they name. */
  lemma SameMask(mask: Mask, mode: string, push: string, mode2: string, push2: string, passkey: string)
    requires ReadMode(mode) == ReadMode(mode2) && ReadDecision(push) == ReadDecision(push2)
    ensures Normalize(mask, mode, push, passkey) == Normalize(mask, mode2, push2, passkey)
  {
  }

  lemma SameTexts(mask: Mask, mode: string, push: string, passkey: string)
    ensures var r := Save(mask, mode, push, passkey);
            ModeFrom(r.mask, r.mode) == r.mode && PushFrom(r.mask, r.push) == r.push
  {
    hide ReadMode, ReadDecision, Trim, Lower, Normalize, ModeBits, DecisionBits, Canonical, ModeText, DecisionText;
    FoldedText(mode);
    ReadDecisionText(ReadDecision(push));
    FoldedName();
  }

  lemma FoldedName()
    ensures Lower(Trim(ModeText(TotpOnly))) == ModeText(TotpOnly) != ""
  {
    assert Lower("totp_only") == "totp_only";
  }

  /** The structural conditions of the save script. */
  predicate ScriptAccepts(next: Mask)
  {
    && next.live
    && !(next.push && next.passkey)
    && !(!next.push && (next.approved || next.denied))
    && !(next.approved && next.denied)
  }

  /** The script accepts exactly the canonical masks. */
  lemma AcceptsExactly(mask: Mask)
    ensures ScriptAccepts(mask) <==> exists bound :: IsCanonical(mask, bound)
  {
    assert ScriptAccepts(mask) <==> IsCanonical(mask, mask.bound);
  }

  /** Every mask the service saves passes the structural checks of the script. */
  lemma SavedIsAccepted(mask: Mask, mode: string, push: string, passkey: string)
    ensures ScriptAccepts(Save(mask, mode, push, passkey).mask)
  {
    hide Save, IsCanonical, ScriptAccepts, Trim;
    SavedState(mask, mode, push, passkey);
    AcceptsExactly(Save(mask, mode, push, passkey).mask);
  }
}
