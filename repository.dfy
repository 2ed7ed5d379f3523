/** `parse`: the lookup of a country's configuration by the first two
    characters of an IBAN, a switch on the first character and then on the
    second. */
module Repository {
  import opened Wrappers
  import opened Exceptions
  import opened Configs
  import opened Catalogue
  import opened Seqs
  import Checks

  /** The dispatch of `parse` on the first two characters: the selected
      entry, or nothing. */
  function Lookup(c1: char, c2: char): Option<ConfigData> {
    match c1
    case 'A' => LookupA(c2)
    case 'B' => LookupB(c2)
    case 'C' => LookupC(c2)
    case 'D' => LookupD(c2)
    case 'E' => LookupE(c2)
    case 'F' => LookupF(c2)
    case 'G' => LookupG(c2)
    case 'H' => LookupH(c2)
    case 'I' => LookupI(c2)
    case 'J' => LookupJ(c2)
    case 'K' => LookupK(c2)
    case 'L' => LookupL(c2)
    case 'M' => LookupM(c2)
    case 'N' => LookupN(c2)
    case 'O' => LookupO(c2)
    case 'P' => LookupP(c2)
    case 'Q' => LookupQ(c2)
    case 'R' => LookupR(c2)
    case 'S' => LookupS(c2)
    case 'T' => LookupT(c2)
    case 'U' => LookupU(c2)
    case 'V' => LookupV(c2)
    case 'X' => LookupX(c2)
    case 'Y' => LookupY(c2)
    case _ => Option.None
  }

  /** The inner switch for first character `A`. */
  function LookupA(c2: char): Option<ConfigData> {
    match c2
    case 'D' => Some(AD)
    case 'E' => Some(AE)
    case 'L' => Some(AL)
    case 'O' => Some(AO)
    case 'T' => Some(AT)
    case 'Z' => Some(AZ)
    case _ => Option.None
  }

  /** The inner switch for first character `B`. */
  function LookupB(c2: char): Option<ConfigData> {
    match c2
    case 'A' => Some(BA)
    case 'E' => Some(BE)
    case 'F' => Some(BF)
    case 'G' => Some(BG)
    case 'H' => Some(BH)
    case 'I' => Some(BI)
    case 'J' => Some(BJ)
    case 'R' => Some(BR)
    case 'Y' => Some(BY)
    case _ => Option.None
  }

  /** The inner switch for first character `C`. */
  function LookupC(c2: char): Option<ConfigData> {
    match c2
    case 'F' => Some(CF)
    case 'H' => Some(CH)
    case 'R' => Some(CR)
    case 'Y' => Some(CY)
    case 'Z' => Some(CZ)
    case 'J' => Some(BJ)
    case 'G' => Some(CG)
    case 'I' => Some(CI)
    case 'M' => Some(CM)
    case 'V' => Some(CV)
    case _ => Option.None
  }

  /** The inner switch for first character `D`. */
  function LookupD(c2: char): Option<ConfigData> {
    match c2
    case 'E' => Some(DE)
    case 'J' => Some(DJ)
    case 'K' => Some(DK)
    case 'O' => Some(DO)
    case 'Z' => Some(DZ)
    case _ => Option.None
  }

  /** The inner switch for first character `E`. */
  function LookupE(c2: char): Option<ConfigData> {
    match c2
    case 'E' => Some(EE)
    case 'G' => Some(EG)
    case 'S' => Some(ES)
    case _ => Option.None
  }

  /** The inner switch for first character `F`. */
  function LookupF(c2: char): Option<ConfigData> {
    match c2
    case 'I' => Some(FI)
    case 'K' => Some(FK)
    case 'O' => Some(FO)
    case 'R' => Some(FR)
    case _ => Option.None
  }

  /** The inner switch for first character `G`. */
  function LookupG(c2: char): Option<ConfigData> {
    match c2
    case 'B' => Some(GB)
    case 'E' => Some(GE)
    case 'I' => Some(GI)
    case 'L' => Some(GL)
    case 'R' => Some(GR)
    case 'T' => Some(GT)
    case 'A' => Some(GA)
    case 'Q' => Some(GQ)
    case 'W' => Some(GW)
    case _ => Option.None
  }

  /** The inner switch for first character `H`. */
  function LookupH(c2: char): Option<ConfigData> {
    match c2
    case 'R' => Some(HR)
    case 'U' => Some(HU)
    case 'N' => Some(HN)
    case _ => Option.None
  }

  /** The inner switch for first character `I`. */
  function LookupI(c2: char): Option<ConfigData> {
    match c2
    case 'E' => Some(IE)
    case 'L' => Some(IL)
    case 'Q' => Some(IQ)
    case 'S' => Some(IS)
    case 'T' => Some(IT)
    case 'R' => Some(IR)
    case _ => Option.None
  }

  /** The inner switch for first character `J`. */
  function LookupJ(c2: char): Option<ConfigData> {
    match c2
    case 'O' => Some(JO)
    case _ => Option.None
  }

  /** The inner switch for first character `K`. */
  function LookupK(c2: char): Option<ConfigData> {
    match c2
    case 'W' => Some(KW)
    case 'Z' => Some(KZ)
    case 'M' => Some(KM)
    case _ => Option.None
  }

  /** The inner switch for first character `L`. */
  function LookupL(c2: char): Option<ConfigData> {
    match c2
    case 'B' => Some(LB)
    case 'C' => Some(LC)
    case 'I' => Some(LI)
    case 'T' => Some(LT)
    case 'U' => Some(LU)
    case 'V' => Some(LV)
    case 'Y' => Some(LY)
    case _ => Option.None
  }

  /** The inner switch for first character `M`. */
  function LookupM(c2: char): Option<ConfigData> {
    match c2
    case 'C' => Some(MC)
    case 'D' => Some(MD)
    case 'E' => Some(ME)
    case 'K' => Some(MK)
    case 'N' => Some(MN)
    case 'R' => Some(MR)
    case 'T' => Some(MT)
    case 'U' => Some(MU)
    case 'A' => Some(MA)
    case 'G' => Some(MG)
    case 'L' => Some(ML)
    case 'Z' => Some(MZ)
    case _ => Option.None
  }

  /** The inner switch for first character `N`. */
  function LookupN(c2: char): Option<ConfigData> {
    match c2
    case 'I' => Some(NI)
    case 'L' => Some(NL)
    case 'O' => Some(NO)
    case 'Z' => Some(MZ)
    case 'E' => Some(NE)
    case _ => Option.None
  }

  /** The inner switch for first character `O`. */
  function LookupO(c2: char): Option<ConfigData> {
    match c2
    case 'M' => Some(OM)
    case _ => Option.None
  }

  /** The inner switch for first character `P`. */
  function LookupP(c2: char): Option<ConfigData> {
    match c2
    case 'K' => Some(PK)
    case 'L' => Some(PL)
    case 'S' => Some(PS)
    case 'T' => Some(PT)
    case _ => Option.None
  }

  /** The inner switch for first character `Q`. */
  function LookupQ(c2: char): Option<ConfigData> {
    match c2
    case 'A' => Some(QA)
    case _ => Option.None
  }

  /** The inner switch for first character `R`. */
  function LookupR(c2: char): Option<ConfigData> {
    match c2
    case 'O' => Some(RO)
    case 'S' => Some(RS)
    case 'U' => Some(RU)
    case _ => Option.None
  }

  /** The inner switch for first character `S`. */
  function LookupS(c2: char): Option<ConfigData> {
    match c2
    case 'A' => Some(SA)
    case 'C' => Some(SC)
    case 'D' => Some(SD)
    case 'E' => Some(SE)
    case 'I' => Some(SI)
    case 'K' => Some(SK)
    case 'M' => Some(SM)
    case 'O' => Some(SO)
    case 'T' => Some(ST)
    case 'V' => Some(SV)
    case 'N' => Some(SN)
    case _ => Option.None
  }

  /** The inner switch for first character `T`. */
  function LookupT(c2: char): Option<ConfigData> {
    match c2
    case 'L' => Some(TL)
    case 'N' => Some(TN)
    case 'R' => Some(TR)
    case 'D' => Some(TD)
    case 'G' => Some(TG)
    case _ => Option.None
  }

  /** The inner switch for first character `U`. */
  function LookupU(c2: char): Option<ConfigData> {
    match c2
    case 'A' => Some(UA)
    case _ => Option.None
  }

  /** The inner switch for first character `V`. */
  function LookupV(c2: char): Option<ConfigData> {
    match c2
    case 'A' => Some(VA)
    case 'G' => Some(VG)
    case _ => Option.None
  }

  /** The inner switch for first character `X`. */
  function LookupX(c2: char): Option<ConfigData> {
    match c2
    case 'K' => Some(XK)
    case _ => Option.None
  }

  /** The inner switch for first character `Y`. */
  function LookupY(c2: char): Option<ConfigData> {
    match c2
    case 'E' => Some(YE)
    case _ => Option.None
  }

  // For each first character: what its switch selects, and that each entry
  // of that first character is selected by its own code.

  /** `d` is what a pair may select: the entry created with that pair as its
      code, except that `CJ` selects `BJ` and `NZ` selects `MZ`. */
  predicate Selects(c1: char, c2: char, d: ConfigData) {
    if c1 == 'C' && c2 == 'J' then d == BJ
    else if c1 == 'N' && c2 == 'Z' then d == MZ
    else |d.id| == 2 && d.id[0] == c1 && d.id[1] == c2
  }

  lemma LookupASound(c2: char)
    ensures LookupA(c2).Some? ==>
      'A' <= c2 <= 'Z' && Selects('A', c2, LookupA(c2).value)
    ensures LookupA('D') == Some(AD) && LookupA('E') == Some(AE) && LookupA('L') == Some(AL) &&
      LookupA('O') == Some(AO) && LookupA('T') == Some(AT) && LookupA('Z') == Some(AZ)
  {
  }

  lemma LookupBSound(c2: char)
    ensures LookupB(c2).Some? ==>
      'A' <= c2 <= 'Z' && Selects('B', c2, LookupB(c2).value)
    ensures LookupB('A') == Some(BA) && LookupB('E') == Some(BE) && LookupB('F') == Some(BF) &&
      LookupB('G') == Some(BG) && LookupB('H') == Some(BH) && LookupB('I') == Some(BI) &&
      LookupB('J') == Some(BJ) && LookupB('R') == Some(BR) && LookupB('Y') == Some(BY)
  {
  }

  lemma LookupCSound(c2: char)
    ensures LookupC(c2).Some? ==>
      'A' <= c2 <= 'Z' && Selects('C', c2, LookupC(c2).value)
    ensures LookupC('F') == Some(CF) && LookupC('H') == Some(CH) && LookupC('R') == Some(CR) &&
      LookupC('Y') == Some(CY) && LookupC('Z') == Some(CZ) && LookupC('G') == Some(CG) &&
      LookupC('I') == Some(CI) && LookupC('M') == Some(CM) && LookupC('V') == Some(CV)
  {
  }

  lemma LookupDSound(c2: char)
    ensures LookupD(c2).Some? ==>
      'A' <= c2 <= 'Z' && Selects('D', c2, LookupD(c2).value)
    ensures LookupD('E') == Some(DE) && LookupD('J') == Some(DJ) && LookupD('K') == Some(DK) &&
      LookupD('O') == Some(DO) && LookupD('Z') == Some(DZ)
  {
  }

  lemma LookupESound(c2: char)
    ensures LookupE(c2).Some? ==>
      'A' <= c2 <= 'Z' && Selects('E', c2, LookupE(c2).value)
    ensures LookupE('E') == Some(EE) && LookupE('G') == Some(EG) && LookupE('S') == Some(ES)
  {
  }

  lemma LookupFSound(c2: char)
    ensures LookupF(c2).Some? ==>
      'A' <= c2 <= 'Z' && Selects('F', c2, LookupF(c2).value)
    ensures LookupF('I') == Some(FI) && LookupF('K') == Some(FK) && LookupF('O') == Some(FO) &&
      LookupF('R') == Some(FR)
  {
  }

  lemma LookupGSound(c2: char)
    ensures LookupG(c2).Some? ==>
      'A' <= c2 <= 'Z' && Selects('G', c2, LookupG(c2).value)
    ensures LookupG('B') == Some(GB) && LookupG('E') == Some(GE) && LookupG('I') == Some(GI) &&
      LookupG('L') == Some(GL) && LookupG('R') == Some(GR) && LookupG('T') == Some(GT) &&
      LookupG('A') == Some(GA) && LookupG('Q') == Some(GQ) && LookupG('W') == Some(GW)
  {
  }

  lemma LookupHSound(c2: char)
    ensures LookupH(c2).Some? ==>
      'A' <= c2 <= 'Z' && Selects('H', c2, LookupH(c2).value)
    ensures LookupH('R') == Some(HR) && LookupH('U') == Some(HU) && LookupH('N') == Some(HN)
  {
  }

  lemma LookupISound(c2: char)
    ensures LookupI(c2).Some? ==>
      'A' <= c2 <= 'Z' && Selects('I', c2, LookupI(c2).value)
    ensures LookupI('E') == Some(IE) && LookupI('L') == Some(IL) && LookupI('Q') == Some(IQ) &&
      LookupI('S') == Some(IS) && LookupI('T') == Some(IT) && LookupI('R') == Some(IR)
  {
  }

  lemma LookupJSound(c2: char)
    ensures LookupJ(c2).Some? ==>
      'A' <= c2 <= 'Z' && Selects('J', c2, LookupJ(c2).value)
    ensures LookupJ('O') == Some(JO)
  {
  }

  lemma LookupKSound(c2: char)
    ensures LookupK(c2).Some? ==>
      'A' <= c2 <= 'Z' && Selects('K', c2, LookupK(c2).value)
    ensures LookupK('W') == Some(KW) && LookupK('Z') == Some(KZ) && LookupK('M') == Some(KM)
  {
  }

  lemma LookupLSound(c2: char)
    ensures LookupL(c2).Some? ==>
      'A' <= c2 <= 'Z' && Selects('L', c2, LookupL(c2).value)
    ensures LookupL('B') == Some(LB) && LookupL('C') == Some(LC) && LookupL('I') == Some(LI) &&
      LookupL('T') == Some(LT) && LookupL('U') == Some(LU) && LookupL('V') == Some(LV) &&
      LookupL('Y') == Some(LY)
  {
  }

  lemma LookupMSound(c2: char)
    ensures LookupM(c2).Some? ==>
      'A' <= c2 <= 'Z' && Selects('M', c2, LookupM(c2).value)
    ensures LookupM('C') == Some(MC) && LookupM('D') == Some(MD) && LookupM('E') == Some(ME) &&
      LookupM('K') == Some(MK) && LookupM('N') == Some(MN) && LookupM('R') == Some(MR) &&
      LookupM('T') == Some(MT) && LookupM('U') == Some(MU) && LookupM('A') == Some(MA) &&
      LookupM('G') == Some(MG) && LookupM('L') == Some(ML) && LookupM('Z') == Some(MZ)
  {
  }

  lemma LookupNSound(c2: char)
    ensures LookupN(c2).Some? ==>
      'A' <= c2 <= 'Z' && Selects('N', c2, LookupN(c2).value)
    ensures LookupN('I') == Some(NI) && LookupN('L') == Some(NL) && LookupN('O') == Some(NO) &&
      LookupN('E') == Some(NE)
  {
  }

  lemma LookupOSound(c2: char)
    ensures LookupO(c2).Some? ==>
      'A' <= c2 <= 'Z' && Selects('O', c2, LookupO(c2).value)
    ensures LookupO('M') == Some(OM)
  {
  }

  lemma LookupPSound(c2: char)
    ensures LookupP(c2).Some? ==>
      'A' <= c2 <= 'Z' && Selects('P', c2, LookupP(c2).value)
    ensures LookupP('K') == Some(PK) && LookupP('L') == Some(PL) && LookupP('S') == Some(PS) &&
      LookupP('T') == Some(PT)
  {
  }

  lemma LookupQSound(c2: char)
    ensures LookupQ(c2).Some? ==>
      'A' <= c2 <= 'Z' && Selects('Q', c2, LookupQ(c2).value)
    ensures LookupQ('A') == Some(QA)
  {
  }

  lemma LookupRSound(c2: char)
    ensures LookupR(c2).Some? ==>
      'A' <= c2 <= 'Z' && Selects('R', c2, LookupR(c2).value)
    ensures LookupR('O') == Some(RO) && LookupR('S') == Some(RS) && LookupR('U') == Some(RU)
  {
  }

  lemma LookupSSound(c2: char)
    ensures LookupS(c2).Some? ==>
      'A' <= c2 <= 'Z' && Selects('S', c2, LookupS(c2).value)
    ensures LookupS('A') == Some(SA) && LookupS('C') == Some(SC) && LookupS('D') == Some(SD) &&
      LookupS('E') == Some(SE) && LookupS('I') == Some(SI) && LookupS('K') == Some(SK) &&
      LookupS('M') == Some(SM) && LookupS('O') == Some(SO) && LookupS('T') == Some(ST) &&
      LookupS('V') == Some(SV) && LookupS('N') == Some(SN)
  {
  }

  lemma LookupTSound(c2: char)
    ensures LookupT(c2).Some? ==>
      'A' <= c2 <= 'Z' && Selects('T', c2, LookupT(c2).value)
    ensures LookupT('L') == Some(TL) && LookupT('N') == Some(TN) && LookupT('R') == Some(TR) &&
      LookupT('D') == Some(TD) && LookupT('G') == Some(TG)
  {
  }

  lemma LookupUSound(c2: char)
    ensures LookupU(c2).Some? ==>
      'A' <= c2 <= 'Z' && Selects('U', c2, LookupU(c2).value)
    ensures LookupU('A') == Some(UA)
  {
  }

  lemma LookupVSound(c2: char)
    ensures LookupV(c2).Some? ==>
      'A' <= c2 <= 'Z' && Selects('V', c2, LookupV(c2).value)
    ensures LookupV('A') == Some(VA) && LookupV('G') == Some(VG)
  {
  }

  lemma LookupXSound(c2: char)
    ensures LookupX(c2).Some? ==>
      'A' <= c2 <= 'Z' && Selects('X', c2, LookupX(c2).value)
    ensures LookupX('K') == Some(XK)
  {
  }

  lemma LookupYSound(c2: char)
    ensures LookupY(c2).Some? ==>
      'A' <= c2 <= 'Z' && Selects('Y', c2, LookupY(c2).value)
    ensures LookupY('E') == Some(YE)
  {
  }

  /** Only pairs of capital letters select anything, and what a pair selects
      is the entry of that code, or the alias target for `CJ` and `NZ`. */
  lemma LookupSound(c1: char, c2: char)
    ensures Lookup(c1, c2).Some? ==>
      'A' <= c1 <= 'Z' && 'A' <= c2 <= 'Z' &&
      Selects(c1, c2, Lookup(c1, c2).value)
  {
    match c1 {
      case 'A' => LookupASound(c2);
      case 'B' => LookupBSound(c2);
      case 'C' => LookupCSound(c2);
      case 'D' => LookupDSound(c2);
      case 'E' => LookupESound(c2);
      case 'F' => LookupFSound(c2);
      case 'G' => LookupGSound(c2);
      case 'H' => LookupHSound(c2);
      case 'I' => LookupISound(c2);
      case 'J' => LookupJSound(c2);
      case 'K' => LookupKSound(c2);
      case 'L' => LookupLSound(c2);
      case 'M' => LookupMSound(c2);
      case 'N' => LookupNSound(c2);
      case 'O' => LookupOSound(c2);
      case 'P' => LookupPSound(c2);
      case 'Q' => LookupQSound(c2);
      case 'R' => LookupRSound(c2);
      case 'S' => LookupSSound(c2);
      case 'T' => LookupTSound(c2);
      case 'U' => LookupUSound(c2);
      case 'V' => LookupVSound(c2);
      case 'X' => LookupXSound(c2);
      case 'Y' => LookupYSound(c2);
      case _ =>
    }
  }

  /** `parse(iban)`: `null` gives no configuration; fewer than two characters
      and an unknown pair of first characters are refused. */
  function Parse(iban: Option<string>): (r: Result<Option<ConfigData>, Exception>)
    ensures iban.None? <==> r == Success(Option.None)
    ensures iban.Some? && |iban.value| < 2 ==>
      r == Failure(IllegalArgument("unable to identify country from " + iban.value))
    ensures r.Success? && r.value.Some? ==> iban.Some? && |iban.value| >= 2
  {
    if iban.None? then Success(Option.None)
    else if |iban.value| < 2 then Failure(IllegalArgument("unable to identify country from " + iban.value))
    else
      var c1, c2 := iban.value[0], iban.value[1];
      match Lookup(c1, c2)
      case Some(d) => Success(Some(d))
      case None => Failure(IllegalArgument("unable to identify country from " + [c1] + [c2]))
  }

  /** The answer of `parse` depends on the first two characters only. */
  lemma ParsePrefix(s: string, t: string)
    requires |s| >= 2 && |t| >= 2 && s[0] == t[0] && s[1] == t[1]
    ensures Parse(Some(s)) == Parse(Some(t))
  {
  }

  /** An unrecognised pair is refused with a message naming the pair. */
  lemma ParseRefuses(s: string)
    requires |s| >= 2 && Lookup(s[0], s[1]).None?
    ensures Parse(Some(s)) == Failure(IllegalArgument("unable to identify country from " + s[..2]))
  {
    PrefixTwo(s);
    AppendAssoc("unable to identify country from ", [s[0]], [s[1]]);
  }

  /** A string that does not start with two capital letters, a lowercase code
      among them, is refused. */
  lemma ParseNeedsCapitals(s: string)
    requires |s| >= 2 && !('A' <= s[0] <= 'Z' && 'A' <= s[1] <= 'Z')
    ensures Parse(Some(s)).Failure?
  {
    LookupSound(s[0], s[1]);
  }

  /** A configuration that `parse` returns is the one its first two
      characters select. */
  lemma ParseSelects(s: string)
    requires Parse(Some(s)).Success?
    ensures |s| >= 2 && Parse(Some(s)).value.Some?
    ensures Selects(s[0], s[1], Parse(Some(s)).value.value)
  {
    LookupSound(s[0], s[1]);
  }

  /** A Slovak IBAN selects the Slovak entry: length 24, pattern
      `SKkkbbbbppppppcccccccccc`, one numeric clause over `[4, 24)`. */
  lemma ParseSlovak()
    ensures Parse(Some("SK1709000000000024041632")) == Success(Some(SK))
    ensures SK == ConfigData("SK", 24, "SKkkbbbbppppppcccccccccc", [Checks.Numeric(4, 24)])
  {
  }
}
