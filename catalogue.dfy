/** The catalogue of country formats: one configuration per country, with
    its code, IBAN length, symbol pattern and format clauses, in table order. */
module Catalogue {
  import Checks
  import opened Resolvers
  import opened Configs

  const AL := ConfigData("AL", 28, "ALkkbbbssssxcccccccccccccccc", [Checks.Numeric(4, 12), Checks.Letters(12, 28)])
  const AD := ConfigData("AD", 24, "ADkkbbbbsssscccccccccccc", [Checks.Numeric(4, 12), Checks.Letters(12, 24)])
  const AT := ConfigData("AT", 20, "ATkkbbbbbccccccccccc", [Checks.Numeric(4, 20)])
  const AZ := ConfigData("AZ", 28, "AZkkbbbbcccccccccccccccccccc", [Checks.Capitals(4, 8), Checks.Letters(8, 28)])
  const BH := ConfigData("BH", 22, "BHkkbbbbcccccccccccccc", [Checks.Capitals(4, 8), Checks.Letters(8, 22)])
  const BY := ConfigData("BY", 28, "BYkkbbbbaaaacccccccccccccccc", [Checks.Letters(4, 8), Checks.Numeric(8, 12), Checks.Letters(12, 28)])
  const BE := ConfigData("BE", 16, "BEkkbbbcccccccxx", [Checks.Numeric(4, 16)])
  const BA := ConfigData("BA", 20, "BAkkbbbsssccccccccxx", [Checks.Numeric(4, 20)])
  const BR := ConfigData("BR", 29, "BRkkbbbbbbbbssssscccccccccctn", [Checks.Numeric(4, 27), Checks.Capitals(27, 28), Checks.Letters(28, 29)])
  const BG := ConfigData("BG", 22, "BGkkqqqqssssttcccccccc", [Checks.Capitals(4, 8), Checks.Numeric(8, 14), Checks.Letters(14, 22)])
  const BI := ConfigData("BI", 27, "BIkkbbbbbsssssccccccccccccc", [Checks.Numeric(4, 9), Checks.Numeric(9, 14), Checks.Numeric(14, 25), Checks.Numeric(25, 27)])
  const CR := ConfigData("CR", 22, "CRkk0bbbcccccccccccccc", [Checks.Numeric(4, 22)])
  const HR := ConfigData("HR", 21, "HRkkbbbbbbbcccccccccc", [Checks.Numeric(4, 21)])
  const CY := ConfigData("CY", 28, "CYkkbbbssssscccccccccccccccc", [Checks.Numeric(4, 12), Checks.Letters(12, 28)])
  const CZ := ConfigData("CZ", 24, "CZkkbbbbppppppcccccccccc", [Checks.Numeric(4, 24)])
  const DK := ConfigData("DK", 18, "DKkkbbbbcccccccccx", [Checks.Numeric(4, 18)])
  const DJ := ConfigData("DJ", 27, "DJkkbbbbbsssssccccccccccccc", [Checks.Numeric(4, 9), Checks.Numeric(9, 14), Checks.Numeric(14, 25), Checks.Numeric(25, 27)])
  const DO := ConfigData("DO", 28, "DOkkbbbbcccccccccccccccccccc", [Checks.Letters(4, 8), Checks.Numeric(8, 28)])
  const TL := ConfigData("TL", 23, "TLkkbbbccccccccccccccxx", [Checks.Numeric(4, 23)])
  const EG := ConfigData("EG", 29, "EGkkbbbbssssccccccccccccccccc", [Checks.Numeric(4, 29)])
  const SV := ConfigData("SV", 28, "SVkkbbbbcccccccccccccccccccc", [Checks.Capitals(4, 8), Checks.Numeric(8, 28)])
  const EE := ConfigData("EE", 20, "EEkkbbsscccccccccccx", [Checks.Numeric(4, 20)])
  const FK := ConfigData("FK", 18, "FKkkbbcccccccccccc", [Checks.Capitals(4, 6), Checks.Numeric(6, 18)])
  const FO := ConfigData("FO", 18, "FOkkbbbbcccccccccx", [Checks.Numeric(4, 18)])
  const FI := ConfigData("FI", 18, "FIkkbbbbbbcccccccx", [Checks.Numeric(4, 18)])
  const FR := ConfigData("FR", 27, "FRkkbbbbbssssscccccccccccxx", [Checks.Numeric(4, 14), Checks.Letters(14, 25), Checks.Numeric(25, 27)])
  const GE := ConfigData("GE", 22, "GEkkbbcccccccccccccccc", [Checks.Capitals(4, 6), Checks.Numeric(6, 22)])
  const DE := ConfigData("DE", 22, "DEkkbbbbbbbbcccccccccc", [Checks.Numeric(4, 22)])
  const GI := ConfigData("GI", 23, "GIkkqqqqccccccccccccccc", [Checks.Capitals(4, 8), Checks.Letters(8, 23)])
  const GR := ConfigData("GR", 27, "GRkkbbbsssscccccccccccccccc", [Checks.Numeric(4, 11), Checks.Letters(11, 27)])
  const GL := ConfigData("GL", 18, "GLkkbbbbcccccccccx", [Checks.Numeric(4, 18)])
  const GT := ConfigData("GT", 28, "GTkkbbbbmmttcccccccccccccccc", [Checks.Letters(4, 8), Checks.Letters(8, 28)])
  const HU := ConfigData("HU", 28, "HUkkbbbssssxcccccccccccccccx", [Checks.Numeric(4, 28)])
  const IS := ConfigData("IS", 26, "ISkkbbssttcccccciiiiiiiiii", [Checks.Numeric(4, 26)])
  const IQ := ConfigData("IQ", 23, "IQkkbbbbssscccccccccccc", [Checks.Capitals(4, 8), Checks.Numeric(8, 23)])
  const IE := ConfigData("IE", 22, "IEkkqqqqbbbbbbcccccccc", [Checks.Capitals(4, 8), Checks.Numeric(8, 14), Checks.Numeric(14, 22)])
  const IL := ConfigData("IL", 23, "ILkkbbbsssccccccccccccc", [Checks.Numeric(4, 23)])
  const IT := ConfigData("IT", 27, "ITkkxbbbbbssssscccccccccccc", [Checks.Capitals(4, 5), Checks.Numeric(5, 15), Checks.Letters(15, 27)])
  const JO := ConfigData("JO", 30, "JOkkbbbbsssscccccccccccccccccc", [Checks.Capitals(4, 8), Checks.Numeric(8, 12), Checks.Letters(12, 30)])
  const KZ := ConfigData("KZ", 20, "KZkkbbbccccccccccccc", [Checks.Numeric(4, 7), Checks.Letters(7, 20)])
  const XK := ConfigData("XK", 20, "XKkkbbbbcccccccccccc", [Checks.Numeric(4, 8), Checks.Numeric(8, 18), Checks.Numeric(18, 20)])
  const KW := ConfigData("KW", 30, "KWkkbbbbcccccccccccccccccccccc", [Checks.Capitals(4, 8), Checks.Letters(8, 30)])
  const LV := ConfigData("LV", 21, "LVkkqqqqccccccccccccc", [Checks.Capitals(4, 8), Checks.Letters(8, 21)])
  const LB := ConfigData("LB", 28, "LBkkbbbbcccccccccccccccccccc", [Checks.Numeric(4, 8), Checks.Letters(8, 28)])
  const LY := ConfigData("LY", 25, "LYkkbbbsssccccccccccccccc", [Checks.Numeric(4, 25)])
  const LI := ConfigData("LI", 21, "LIkkbbbbbcccccccccccc", [Checks.Numeric(4, 9), Checks.Letters(9, 21)])
  const LT := ConfigData("LT", 20, "LTkkbbbbbccccccccccc", [Checks.Numeric(4, 20)])
  const LU := ConfigData("LU", 20, "LUkkbbbccccccccccccc", [Checks.Numeric(4, 7), Checks.Letters(7, 20)])
  const MT := ConfigData("MT", 31, "MTkkqqqqssssscccccccccccccccccc", [Checks.Capitals(4, 8), Checks.Numeric(8, 13), Checks.Letters(13, 31)])
  const MR := ConfigData("MR", 27, "MRkkbbbbbssssscccccccccccxx", [Checks.Numeric(4, 27)])
  const MU := ConfigData("MU", 30, "MUkkbbbbbbsscccccccccccc000mmm", [Checks.Capitals(4, 8), Checks.Numeric(8, 27), Checks.Capitals(27, 30)])
  const MC := ConfigData("MC", 27, "MCkkbbbbbssssscccccccccccxx", [Checks.Numeric(4, 14), Checks.Letters(14, 25), Checks.Numeric(25, 27)])
  const MD := ConfigData("MD", 24, "MDkkbbcccccccccccccccccc", [Checks.Letters(4, 6), Checks.Letters(6, 24)])
  const MN := ConfigData("MN", 20, "MNkkbbbbcccccccccccc", [Checks.Numeric(4, 8), Checks.Numeric(8, 20)])
  const ME := ConfigData("ME", 22, "MEkkbbbcccccccccccccxx", [Checks.Numeric(4, 22)])
  const NL := ConfigData("NL", 18, "NLkkqqqqcccccccccc", [Checks.Capitals(4, 8), Checks.Numeric(8, 18)])
  const NI := ConfigData("NI", 28, "NIkkbbbbcccccccccccccccccccc", [Checks.Capitals(4, 8), Checks.Numeric(8, 28)])
  const MK := ConfigData("MK", 19, "MKkkbbbccccccccccxx", [Checks.Numeric(4, 7), Checks.Letters(7, 17), Checks.Numeric(17, 19)])
  const NO := ConfigData("NO", 15, "NOkkbbbbccccccx", [Checks.Numeric(4, 15)])
  const OM := ConfigData("OM", 23, "OMkkbbbcccccccccccccccc", [Checks.Numeric(4, 7), Checks.Letters(7, 23)])
  const PK := ConfigData("PK", 24, "PKkkbbbbcccccccccccccccc", [Checks.Capitals(4, 8), Checks.Letters(8, 24)])
  const PS := ConfigData("PS", 29, "PSkkbbbbccccccccccccccccccccc", [Checks.Capitals(4, 8), Checks.Letters(8, 29)])
  const PL := ConfigData("PL", 28, "PLkkbbbssssxcccccccccccccccc", [Checks.Numeric(4, 28)])
  const PT := ConfigData("PT", 25, "PTkkbbbbsssscccccccccccxx", [Checks.Numeric(4, 25)])
  const QA := ConfigData("QA", 29, "QAkkbbbbccccccccccccccccccccc", [Checks.Capitals(4, 8), Checks.Letters(8, 29)])
  const RO := ConfigData("RO", 24, "ROkkqqqqcccccccccccccccc", [Checks.Capitals(4, 8), Checks.Letters(8, 24)])
  const RU := ConfigData("RU", 33, "RUkkbbbbbbbbbsssssccccccccccccccc", [Checks.Numeric(4, 13), Checks.Letters(13, 33)])
  const LC := ConfigData("LC", 32, "LCkkbbbbcccccccccccccccccccccccc", [Checks.Capitals(4, 8), Checks.Letters(8, 32)])
  const SM := ConfigData("SM", 27, "SMkkxbbbbbssssscccccccccccc", [Checks.Capitals(4, 5), Checks.Numeric(5, 15), Checks.Letters(15, 27)])
  const ST := ConfigData("ST", 25, "STkkbbbbssssccccccccccccc", [Checks.Numeric(4, 25)])
  const SA := ConfigData("SA", 24, "SAkkbbcccccccccccccccccc", [Checks.Numeric(4, 6), Checks.Letters(6, 24)])
  const RS := ConfigData("RS", 22, "RSkkbbbcccccccccccccxx", [Checks.Numeric(4, 22)])
  const SC := ConfigData("SC", 31, "SCkkbbbbbbssccccccccccccccccmmm", [Checks.Capitals(4, 8), Checks.Numeric(8, 28), Checks.Capitals(28, 31)])
  const SK := ConfigData("SK", 24, "SKkkbbbbppppppcccccccccc", [Checks.Numeric(4, 24)])
  const SI := ConfigData("SI", 19, "SIkkbbsssccccccccxx", [Checks.Numeric(4, 19)])
  const SO := ConfigData("SO", 23, "SOkkbbbbssscccccccccccc", [Checks.Numeric(4, 8), Checks.Numeric(8, 11), Checks.Numeric(11, 23)])
  const ES := ConfigData("ES", 24, "ESkkbbbbssssxxcccccccccc", [Checks.Numeric(4, 24)])
  const SD := ConfigData("SD", 18, "SDkkbbcccccccccccc", [Checks.Numeric(4, 18)])
  const SE := ConfigData("SE", 24, "SEkkbbbccccccccccccccccx", [Checks.Numeric(4, 24)])
  const CH := ConfigData("CH", 21, "CHkkbbbbbcccccccccccc", [Checks.Numeric(4, 9), Checks.Letters(9, 21)])
  const TN := ConfigData("TN", 24, "TNkkbbssscccccccccccccxx", [Checks.Numeric(4, 24)])
  const TR := ConfigData("TR", 26, "TRkkbbbbb0cccccccccccccccc", [Checks.Numeric(4, 9), Checks.Numeric(9, 10), Checks.Letters(10, 26)])
  const UA := ConfigData("UA", 29, "UAkkbbbbbbccccccccccccccccccc", [Checks.Numeric(4, 10), Checks.Letters(10, 29)])
  const AE := ConfigData("AE", 23, "AEkkbbbcccccccccccccccc", [Checks.Numeric(4, 7), Checks.Numeric(7, 23)])
  const GB := ConfigData("GB", 22, "GBkkqqqqsssssscccccccc", [Checks.Capitals(4, 8), Checks.Numeric(8, 22)])
  const VA := ConfigData("VA", 22, "VAkkbbbccccccccccccccc", [Checks.Numeric(4, 7), Checks.Numeric(7, 22)])
  const VG := ConfigData("VG", 24, "VGkkbbbbcccccccccccccccc", [Checks.Capitals(4, 8), Checks.Numeric(8, 24)])
  const YE := ConfigData("YE", 30, "YEkkbbbbsssscccccccccccccccccc", [Checks.Capitals(4, 8), Checks.Numeric(8, 12), Checks.Letters(12, 30)])
  const DZ := ConfigData("DZ", 26, "DZkknnnnnnnnnnnnnnnnnnnnnn", [Checks.Numeric(4, 26)])
  const AO := ConfigData("AO", 25, "AOkknnnnnnnnnnnnnnnnnnnnn", [Checks.Numeric(4, 25)])
  const BJ := ConfigData("BJ", 28, "BJkkccnnnnnnnnnnnnnnnnnnnnnn", [Checks.Letters(4, 6), Checks.Numeric(6, 28)])
  const BF := ConfigData("BF", 28, "BFkkccnnnnnnnnnnnnnnnnnnnnnn", [Checks.Letters(4, 6), Checks.Numeric(6, 28)])
  const CV := ConfigData("CV", 25, "CVkknnnnnnnnnnnnnnnnnnnnn", [Checks.Numeric(4, 25)])
  const CM := ConfigData("CM", 27, "CMkknnnnnnnnnnnnnnnnnnnnnnn", [Checks.Numeric(4, 27)])
  const CF := ConfigData("CF", 27, "CFkknnnnnnnnnnnnnnnnnnnnnnn", [Checks.Numeric(4, 27)])
  const TD := ConfigData("TD", 27, "TDkknnnnnnnnnnnnnnnnnnnnnnn", [Checks.Numeric(4, 27)])
  const KM := ConfigData("KM", 27, "KMkknnnnnnnnnnnnnnnnnnnnnnn", [Checks.Numeric(4, 27)])
  const CG := ConfigData("CG", 27, "CGkknnnnnnnnnnnnnnnnnnnnnnn", [Checks.Numeric(4, 27)])
  const CI := ConfigData("CI", 28, "CIkkaannnnnnnnnnnnnnnnnnnnnn", [Checks.Capitals(4, 6), Checks.Numeric(6, 28)])
  const GQ := ConfigData("GQ", 27, "GQkknnnnnnnnnnnnnnnnnnnnnnn", [Checks.Numeric(4, 27)])
  const GA := ConfigData("GA", 27, "GAkknnnnnnnnnnnnnnnnnnnnnnn", [Checks.Numeric(4, 27)])
  const GW := ConfigData("GW", 25, "GWkkccnnnnnnnnnnnnnnnnnnn", [Checks.Letters(4, 6), Checks.Numeric(6, 25)])
  const HN := ConfigData("HN", 28, "HNkkaaaannnnnnnnnnnnnnnnnnnn", [Checks.Capitals(4, 8), Checks.Numeric(8, 28)])
  const IR := ConfigData("IR", 26, "IRkknnnnnnnnnnnnnnnnnnnnnn", [Checks.Numeric(4, 26)])
  const MG := ConfigData("MG", 27, "MGkknnnnnnnnnnnnnnnnnnnnnnn", [Checks.Numeric(4, 27)])
  const ML := ConfigData("ML", 28, "MLkkccnnnnnnnnnnnnnnnnnnnnnn", [Checks.Letters(4, 6), Checks.Numeric(6, 28)])
  const MA := ConfigData("MA", 28, "MAkknnnnnnnnnnnnnnnnnnnnnnnn", [Checks.Numeric(4, 28)])
  const MZ := ConfigData("MZ", 25, "MZkknnnnnnnnnnnnnnnnnnnnn", [Checks.Numeric(4, 25)])
  const NE := ConfigData("NE", 28, "NEkkaannnnnnnnnnnnnnnnnnnnnn", [Checks.Capitals(4, 6), Checks.Numeric(6, 28)])
  const SN := ConfigData("SN", 28, "SNkkaannnnnnnnnnnnnnnnnnnnnn", [Checks.Capitals(4, 6), Checks.Numeric(6, 28)])
  const TG := ConfigData("TG", 28, "TGkkaannnnnnnnnnnnnnnnnnnnnn", [Checks.Capitals(4, 6), Checks.Numeric(6, 28)])

  /** Clauses that cover `[from, to)` one after another, each non-empty. */
  predicate Tiles(cs: seq<Checks.Check>, from: int, to: int)
    decreases |cs|
  {
    if |cs| == 0 then from == to
    else cs[0].start == from && cs[0].start < cs[0].end && Tiles(cs[1..], cs[0].end, to)
  }

  /** The shape of a catalogue entry: a two-character code, a pattern as long
      as the IBAN, and clauses that cover every position after the check
      digits once. */
  predicate WellFormed(d: ConfigData) {
    |d.id| == 2 && d.length >= 4 && |d.pattern| == d.length &&
    Tiles(d.checks, 4, d.length)
  }

  /** Clauses that tile a range inside `s` can all run on `s`. */
  lemma {:induction false} TilesDefined(cs: seq<Checks.Check>, from: int, to: int, s: string)
    requires Tiles(cs, from, to) && 0 <= from && to <= |s|
    ensures FormatDefined(cs, s)
    decreases |cs|
  {
    if |cs| > 0 {
      TilesBounded(cs[1..], cs[0].end, to);
      TilesDefined(cs[1..], cs[0].end, to, s);
    }
  }

  lemma {:induction false} TilesBounded(cs: seq<Checks.Check>, from: int, to: int)
    requires Tiles(cs, from, to)
    ensures from <= to
    decreases |cs|
  {
    if |cs| > 0 {
      TilesBounded(cs[1..], cs[0].end, to);
    }
  }

  /** An IBAN of the length an entry fixes can be checked against the entry's
      format and resolved against its pattern for every symbol, without an
      exception. */
  lemma WellFormedIsSafe(d: ConfigData, s: string)
    requires WellFormed(d) && |s| == d.length
    ensures FormatDefined(d.checks, s)
    ensures forall c :: Covers(s, d.pattern, c)
  {
    TilesDefined(d.checks, 4, d.length, s);
  }

  /** Entries AL to CY have the shape of a catalogue entry. */
  lemma WellFormedPart1()
    ensures WellFormed(AL) && WellFormed(AD) && WellFormed(AT) && WellFormed(AZ) && WellFormed(BH) && WellFormed(BY) && WellFormed(BE)
    ensures WellFormed(BA) && WellFormed(BR) && WellFormed(BG) && WellFormed(BI) && WellFormed(CR) && WellFormed(HR) && WellFormed(CY)
  {
  }

  /** Entries CZ to DE have the shape of a catalogue entry. */
  lemma WellFormedPart2()
    ensures WellFormed(CZ) && WellFormed(DK) && WellFormed(DJ) && WellFormed(DO) && WellFormed(TL) && WellFormed(EG) && WellFormed(SV)
    ensures WellFormed(EE) && WellFormed(FK) && WellFormed(FO) && WellFormed(FI) && WellFormed(FR) && WellFormed(GE) && WellFormed(DE)
  {
  }

  /** Entries GI to KW have the shape of a catalogue entry. */
  lemma WellFormedPart3()
    ensures WellFormed(GI) && WellFormed(GR) && WellFormed(GL) && WellFormed(GT) && WellFormed(HU) && WellFormed(IS) && WellFormed(IQ)
    ensures WellFormed(IE) && WellFormed(IL) && WellFormed(IT) && WellFormed(JO) && WellFormed(KZ) && WellFormed(XK) && WellFormed(KW)
  {
  }

  /** Entries LV to NL have the shape of a catalogue entry. */
  lemma WellFormedPart4()
    ensures WellFormed(LV) && WellFormed(LB) && WellFormed(LY) && WellFormed(LI) && WellFormed(LT) && WellFormed(LU) && WellFormed(MT)
    ensures WellFormed(MR) && WellFormed(MU) && WellFormed(MC) && WellFormed(MD) && WellFormed(MN) && WellFormed(ME) && WellFormed(NL)
  {
  }

  /** Entries NI to ST have the shape of a catalogue entry. */
  lemma WellFormedPart5()
    ensures WellFormed(NI) && WellFormed(MK) && WellFormed(NO) && WellFormed(OM) && WellFormed(PK) && WellFormed(PS) && WellFormed(PL)
    ensures WellFormed(PT) && WellFormed(QA) && WellFormed(RO) && WellFormed(RU) && WellFormed(LC) && WellFormed(SM) && WellFormed(ST)
  {
  }

  /** Entries SA to AE have the shape of a catalogue entry. */
  lemma WellFormedPart6()
    ensures WellFormed(SA) && WellFormed(RS) && WellFormed(SC) && WellFormed(SK) && WellFormed(SI) && WellFormed(SO) && WellFormed(ES)
    ensures WellFormed(SD) && WellFormed(SE) && WellFormed(CH) && WellFormed(TN) && WellFormed(TR) && WellFormed(UA) && WellFormed(AE)
  {
  }

  /** Entries GB to CG have the shape of a catalogue entry. */
  lemma WellFormedPart7()
    ensures WellFormed(GB) && WellFormed(VA) && WellFormed(VG) && WellFormed(YE) && WellFormed(DZ) && WellFormed(AO) && WellFormed(BJ)
    ensures WellFormed(BF) && WellFormed(CV) && WellFormed(CM) && WellFormed(CF) && WellFormed(TD) && WellFormed(KM) && WellFormed(CG)
  {
  }

  /** Entries CI to TG have the shape of a catalogue entry. */
  lemma WellFormedPart8()
    ensures WellFormed(CI) && WellFormed(GQ) && WellFormed(GA) && WellFormed(GW) && WellFormed(HN) && WellFormed(IR) && WellFormed(MG)
    ensures WellFormed(ML) && WellFormed(MA) && WellFormed(MZ) && WellFormed(NE) && WellFormed(SN) && WellFormed(TG)
  {
  }

  /** A symbol that fills the middle part of a pattern and is absent from
      the rest compiles to the substring of that part. */
  lemma RunBetween(x: string, y: string, z: string, c: char)
    requires |y| > 0 && c !in x && c !in z
    requires forall i :: 0 <= i < |y| ==> y[i] == c
    ensures Compiles(x + y + z, c, Substring(|x|, |x| + |y|))
  {
    var p := x + y + z;
    forall i | 0 <= i < |p|
      ensures p[i] == c <==> |x| <= i < |x| + |y|
    {
      if i < |x| {
        assert p[i] == x[i];
      } else if i < |x| + |y| {
        assert p[i] == y[i - |x|];
      } else {
        assert p[i] == z[i - |x| - |y|];
      }
    }
  }

  /** In the Slovak pattern the bank number `b` is the one run `[4, 8)`. */
  lemma SlovakBankResolver()
    ensures Compiles(SK.pattern, 'b', Substring(4, 8))
  {
    var p := SK.pattern;
    assert p == "SKkk" + "bbbb" + "ppppppcccccccccc";
    RunBetween("SKkk", "bbbb", "ppppppcccccccccc", 'b');
  }

  /** No symbol `q` occurs in the Slovak pattern. */
  lemma SlovakAbsentResolver()
    ensures Compiles(SK.pattern, 'q', SubstringResolver.None)
  {
  }

  /** In the Hungarian pattern the check symbol `x` occurs in two runs, so it
      compiles to a pattern resolver. */
  lemma HungarianResolver()
    ensures Compiles(HU.pattern, 'x', Pattern('x', HU.pattern))
  {
    assert HU.pattern[11] == 'x' && HU.pattern[12] != 'x' && HU.pattern[27] == 'x';
  }
}
