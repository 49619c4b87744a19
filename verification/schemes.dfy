/** The name tables of `convertModScheme`, `convertCRCScheme` and
    `convertFECScheme`, and the scheme ladders the adaptation rules walk.
    Configuration files name schemes by string; an unknown name stops the
    run. */
module Schemes {
  import opened MachineInts
  import opened Outcomes

  /** The liquid-dsp modulation schemes the test system can select. */
  datatype ModScheme =
    | Bpsk | Qpsk | Psk8 | Psk16 | Psk32 | Psk64 | Psk128
    | Ook
    | Qam8 | Qam16 | Qam32 | Qam64
    | Bask | Ask4 | Ask8 | Ask16 | Ask32 | Ask64 | Ask128

  /** The liquid-dsp CRC schemes the test system can select. */
  datatype CrcScheme = CrcNone | CrcChecksum | Crc8 | Crc16 | Crc24 | Crc32

  /** The liquid-dsp FEC schemes the test system can select. */
  datatype FecScheme =
    | FecNone | Hamming74 | Hamming128 | Golay2412
    | SecDed2216 | SecDed3932 | SecDed7264

  /** Configuration-file spelling of each modulation scheme. */
  function ModName(m: ModScheme): string
  {
    match m
    case Bpsk => "BPSK"
    case Qpsk => "QPSK"
    case Psk8 => "8PSK"
    case Psk16 => "16PSK"
    case Psk32 => "32PSK"
    case Psk64 => "64PSK"
    case Psk128 => "128PSK"
    case Ook => "OOK"
    case Qam8 => "8QAM"
    case Qam16 => "16QAM"
    case Qam32 => "32QAM"
    case Qam64 => "64QAM"
    case Bask => "BASK"
    case Ask4 => "4ASK"
    case Ask8 => "8ASK"
    case Ask16 => "16ASK"
    case Ask32 => "32ASK"
    case Ask64 => "64ASK"
    case Ask128 => "128ASK"
  }

  /** Number of points in the constellation (the M of M-PSK, M-QAM, M-ASK). */
  function ConstellationSize(m: ModScheme): nat
  {
    match m
    case Bpsk => 2
    case Qpsk => 4
    case Psk8 => 8
    case Psk16 => 16
    case Psk32 => 32
    case Psk64 => 64
    case Psk128 => 128
    case Ook => 2
    case Qam8 => 8
    case Qam16 => 16
    case Qam32 => 32
    case Qam64 => 64
    case Bask => 2
    case Ask4 => 4
    case Ask8 => 8
    case Ask16 => 16
    case Ask32 => 32
    case Ask64 => 64
    case Ask128 => 128
  }

  /** `convertModScheme`: the scheme a name selects and the bits per symbol
      it writes through `bps`; an unknown name is fatal. A known name yields
      exactly the scheme spelled that way, with log2(M) bits per symbol. */
  function ConvertModScheme(name: string): (r: Outcome<(ModScheme, nat)>)
    ensures r.Ok? ==> ModName(r.value.0) == name
    ensures r.Ok? ==> Pow2(r.value.1) == ConstellationSize(r.value.0)
    ensures r.Exit? ==> forall m :: ModName(m) != name
  {
    if name == "QPSK" then Ok((Qpsk, 2))
    else if name == "BPSK" then Ok((Bpsk, 1))
    else if name == "OOK" then Ok((Ook, 1))
    else if name == "8PSK" then Ok((Psk8, 3))
    else if name == "16PSK" then Ok((Psk16, 4))
    else if name == "32PSK" then Ok((Psk32, 5))
    else if name == "64PSK" then Ok((Psk64, 6))
    else if name == "128PSK" then Ok((Psk128, 7))
    else if name == "8QAM" then Ok((Qam8, 3))
    else if name == "16QAM" then Ok((Qam16, 4))
    else if name == "32QAM" then Ok((Qam32, 5))
    else if name == "64QAM" then Ok((Qam64, 6))
    else if name == "BASK" then Ok((Bask, 1))
    else if name == "4ASK" then Ok((Ask4, 2))
    else if name == "8ASK" then Ok((Ask8, 3))
    else if name == "16ASK" then Ok((Ask16, 4))
    else if name == "32ASK" then Ok((Ask32, 5))
    else if name == "64ASK" then Ok((Ask64, 6))
    else if name == "128ASK" then Ok((Ask128, 7))
    else Exit("ERROR: Unknown Modulation Scheme")
  }

  /** Every scheme's own name is accepted and selects that scheme. */
  lemma ModNameAccepted(m: ModScheme)
    ensures ConvertModScheme(ModName(m)).Ok?
    ensures ConvertModScheme(ModName(m)).value.0 == m
  {
  }

  /** Configuration-file spelling of each CRC scheme. */
  function CrcName(c: CrcScheme): string
  {
    match c
    case CrcNone => "none"
    case CrcChecksum => "checksum"
    case Crc8 => "8"
    case Crc16 => "16"
    case Crc24 => "24"
    case Crc32 => "32"
  }

  /** `convertCRCScheme`: the CRC a name selects; an unknown name is fatal. */
  function ConvertCrcScheme(name: string): (r: Outcome<CrcScheme>)
    ensures r.Ok? ==> CrcName(r.value) == name
    ensures r.Exit? ==> forall c :: CrcName(c) != name
  {
    if name == "none" then Ok(CrcNone)
    else if name == "checksum" then Ok(CrcChecksum)
    else if name == "8" then Ok(Crc8)
    else if name == "16" then Ok(Crc16)
    else if name == "24" then Ok(Crc24)
    else if name == "32" then Ok(Crc32)
    else Exit("ERROR: unknown CRC")
  }

  lemma CrcNameAccepted(c: CrcScheme)
    ensures ConvertCrcScheme(CrcName(c)) == Ok(c)
  {
  }

  /** Configuration-file spelling of each FEC scheme. */
  function FecName(f: FecScheme): string
  {
    match f
    case FecNone => "none"
    case Hamming74 => "Hamming74"
    case Hamming128 => "Hamming128"
    case Golay2412 => "Golay2412"
    case SecDed2216 => "SEC-DED2216"
    case SecDed3932 => "SEC-DED3932"
    case SecDed7264 => "SEC-DED7264"
  }

  /** `convertFECScheme`: the FEC a name selects; an unknown name is fatal. */
  function ConvertFecScheme(name: string): (r: Outcome<FecScheme>)
    ensures r.Ok? ==> FecName(r.value) == name
    ensures r.Exit? ==> forall f :: FecName(f) != name
  {
    if name == "none" then Ok(FecNone)
    else if name == "Hamming74" then Ok(Hamming74)
    else if name == "Hamming128" then Ok(Hamming128)
    else if name == "Golay2412" then Ok(Golay2412)
    else if name == "SEC-DED2216" then Ok(SecDed2216)
    else if name == "SEC-DED3932" then Ok(SecDed3932)
    else if name == "SEC-DED7264" then Ok(SecDed7264)
    else Exit("ERROR: unknown FEC")
  }

  lemma FecNameAccepted(f: FecScheme)
    ensures ConvertFecScheme(FecName(f)) == Ok(f)
  {
  }

  /** The PSK ladder of `decrease_mod_scheme_PSK`, lowest order first. */
  const PskLadder: seq<string> := ["BPSK", "QPSK", "8PSK", "16PSK", "32PSK", "64PSK", "128PSK"]

  /** The ASK ladder of `decrease_mod_scheme_ASK`, lowest order first. */
  const AskLadder: seq<string> := ["BASK", "4ASK", "8ASK", "16ASK", "32ASK", "64ASK", "128ASK"]

  /** The outer-FEC ladder of `increase_fec` / `decrease_fec`, weakest first. */
  const FecLadder: seq<string> :=
    ["none", "Hamming74", "Hamming128", "Golay2412", "SEC-DED2216", "SEC-DED3932", "SEC-DED7264"]

  /** Rung i of the PSK and of the ASK ladder carries i + 1 bits per symbol. */
  lemma LadderBitsPerSymbol(i: int)
    requires 0 <= i < 7
    ensures ConvertModScheme(PskLadder[i]).Ok? && ConvertModScheme(PskLadder[i]).value.1 == i + 1
    ensures ConvertModScheme(AskLadder[i]).Ok? && ConvertModScheme(AskLadder[i]).value.1 == i + 1
  {
  }

  /** Every rung of the FEC ladder is a scheme `convertFECScheme` accepts. */
  lemma FecLadderAccepted(i: int)
    requires 0 <= i < |FecLadder|
    ensures ConvertFecScheme(FecLadder[i]).Ok?
    ensures ConvertFecScheme(FecLadder[i]).value == [FecNone, Hamming74, Hamming128, Golay2412,
                                                      SecDed2216, SecDed3932, SecDed7264][i]
  {
  }
}
