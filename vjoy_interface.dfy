/** The pure part of the vJoy binding in `vjoy/vjoy_interface.py`: the device
    state codes, the force-feedback (FFB) packet types with their report codes
    and the fallible decoder from a raw code, and the rule that picks which
    vJoyInterface.dll file to load. */
module VJoyInterface {

  import opened Wrappers
  import Decimal

  // ---------------------------------------------------------------------------
  // Device states

  /** The states a vJoy device can be in. */
  datatype VJoyState = Owned | Free | Bust | Missing | Unknown

  /** The number declared for each state. */
  function StateCode(s: VJoyState): (c: nat)
    ensures c <= 4
    ensures s == Unknown <==> c == 4
  {
    match s
    case Owned => 0
    case Free => 1
    case Bust => 2
    case Missing => 3
    case Unknown => 4
  }

  /** No two states share a code. */
  lemma StateCodeInjective(s: VJoyState, t: VJoyState)
    ensures StateCode(s) == StateCode(t) ==> s == t
  {
  }

  // ---------------------------------------------------------------------------
  // FFB packet types

  /** The FFB report types the vJoy driver delivers. The first thirteen are
      output ("write") reports, the last three feature reports. */
  datatype FFBPType =
    | PT_EFFREP     // Set Effect Report
    | PT_ENVREP     // Set Envelope Report
    | PT_CONDREP    // Set Condition Report
    | PT_PRIDREP    // Set Periodic Report
    | PT_CONSTREP   // Set Constant Force Report
    | PT_RAMPREP    // Set Ramp Force Report
    | PT_CSTMREP    // Custom Force Data Report
    | PT_SMPLREP    // Download Force Sample
    | PT_EFOPREP    // Effect Operation Report
    | PT_BLKFRREP   // PID Block Free Report
    | PT_CTRLREP    // PID Device Control
    | PT_GAINREP    // Device Gain Report
    | PT_SETCREP    // Set Custom Force Report
    | PT_NEWEFREP   // Create New Effect Report
    | PT_BLKLDREP   // Block Load Report
    | PT_POOLREP    // PID Pool Report

  /** Offset that separates feature report codes from write report codes. */
  const FeatureOffset: int := 0x10

  /** The write-report codes in use: 0x01 to 0x0E, except 0x09. */
  predicate IsWriteCode(c: int) {
    0x01 <= c <= 0x0E && c != 0x09
  }

  /** The feature-report codes: 0x01 to 0x03 above the feature offset. */
  predicate IsFeatureCode(c: int) {
    0x01 + FeatureOffset <= c <= 0x03 + FeatureOffset
  }

  /** The packet types declared under the "Feature" heading. */
  predicate IsFeature(t: FFBPType) {
    t.PT_NEWEFREP? || t.PT_BLKLDREP? || t.PT_POOLREP?
  }

  /** The report code declared for each packet type (the enum member's
      value, a one-element tuple in the source, taken at index 0). Write
      reports carry write codes and feature reports feature codes. */
  function Code(t: FFBPType): (c: int)
    ensures !IsFeature(t) <==> IsWriteCode(c)
    ensures IsFeature(t) <==> IsFeatureCode(c)
  {
    match t
    case PT_EFFREP => 0x01
    case PT_ENVREP => 0x02
    case PT_CONDREP => 0x03
    case PT_PRIDREP => 0x04
    case PT_CONSTREP => 0x05
    case PT_RAMPREP => 0x06
    case PT_CSTMREP => 0x07
    case PT_SMPLREP => 0x08
    case PT_EFOPREP => 0x0A
    case PT_BLKFRREP => 0x0B
    case PT_CTRLREP => 0x0C
    case PT_GAINREP => 0x0D
    case PT_SETCREP => 0x0E
    case PT_NEWEFREP => 0x01 + FeatureOffset
    case PT_BLKLDREP => 0x02 + FeatureOffset
    case PT_POOLREP => 0x03 + FeatureOffset
  }

  /** The error `from_ctype` raises: the offending raw value. */
  datatype FfbTypeError = InvalidFfbType(value: int)

  /** The fixed opening of the decoder's error message. */
  const MessagePrefix: string := "Invalid ffb type value "

  /** The text of the raised error: the fixed opening, then the carried
      value in `{:d}` form, from which the value can be read back. */
  function Message(e: FfbTypeError): (m: string)
    ensures |m| > |MessagePrefix| && m[..|MessagePrefix|] == MessagePrefix
    ensures m[|MessagePrefix|..] == Decimal.IntToDecimal(e.value)
    ensures Decimal.ParseInt(m[|MessagePrefix|..]) == e.value
  {
    Decimal.ParseIntOfIntToDecimal(e.value);
    MessagePrefix + Decimal.IntToDecimal(e.value)
  }

  /** Decodes a raw report code into its packet type, failing with the value
      itself for every code that no packet type declares. */
  function FromCtype(v: int): (r: Result<FFBPType, FfbTypeError>)
    ensures r.Success? ==> Code(r.value) == v
    ensures r.Failure? ==> r.error == InvalidFfbType(v) && forall t :: Code(t) != v
  {
    if v == 0x01 then Success(PT_EFFREP)
    else if v == 0x02 then Success(PT_ENVREP)
    else if v == 0x03 then Success(PT_CONDREP)
    else if v == 0x04 then Success(PT_PRIDREP)
    else if v == 0x05 then Success(PT_CONSTREP)
    else if v == 0x06 then Success(PT_RAMPREP)
    else if v == 0x07 then Success(PT_CSTMREP)
    else if v == 0x08 then Success(PT_SMPLREP)
    else if v == 0x0A then Success(PT_EFOPREP)
    else if v == 0x0B then Success(PT_BLKFRREP)
    else if v == 0x0C then Success(PT_CTRLREP)
    else if v == 0x0D then Success(PT_GAINREP)
    else if v == 0x0E then Success(PT_SETCREP)
    else if v == 0x01 + 0x10 then Success(PT_NEWEFREP)
    else if v == 0x02 + 0x10 then Success(PT_BLKLDREP)
    else if v == 0x03 + 0x10 then Success(PT_POOLREP)
    else Failure(InvalidFfbType(v))
  }

  /** Every packet type, in declaration order. */
  const AllTypes: seq<FFBPType> := [
    PT_EFFREP, PT_ENVREP, PT_CONDREP, PT_PRIDREP, PT_CONSTREP, PT_RAMPREP,
    PT_CSTMREP, PT_SMPLREP, PT_EFOPREP, PT_BLKFRREP, PT_CTRLREP, PT_GAINREP,
    PT_SETCREP, PT_NEWEFREP, PT_BLKLDREP, PT_POOLREP]

  /** The codes the decoder accepts, written out. */
  const AcceptedCodes: set<int> := {
    0x01, 0x02, 0x03, 0x04, 0x05, 0x06, 0x07, 0x08,
    0x0A, 0x0B, 0x0C, 0x0D, 0x0E, 0x11, 0x12, 0x13}

  /** `AllTypes` lists each of the sixteen packet types exactly once. */
  lemma AllTypesComplete(t: FFBPType)
    ensures t in AllTypes
    ensures |AllTypes| == 16
    ensures forall i, j :: 0 <= i < j < |AllTypes| ==> AllTypes[i] != AllTypes[j]
  {
  }

  /** Distinct packet types are declared with distinct codes. */
  lemma CodeInjective(s: FFBPType, t: FFBPType)
    ensures Code(s) == Code(t) ==> s == t
  {
  }

  /** Decoding the declared code of a type gives back that type. */
  lemma FromCtypeOfCode(t: FFBPType)
    ensures FromCtype(Code(t)) == Success(t)
  {
  }

  /** Encoding a decoded value gives back the value. */
  lemma CodeOfFromCtype(v: int)
    requires FromCtype(v).Success?
    ensures Code(FromCtype(v).value) == v
  {
  }

  /** Distinct values decode to distinct results: to distinct types when
      accepted, to errors carrying distinct values otherwise. */
  lemma FromCtypeInjective(v: int, w: int)
    ensures FromCtype(v) == FromCtype(w) ==> v == w
  {
  }

  /** The decoder accepts exactly the sixteen values of `AcceptedCodes`. */
  lemma AcceptedCodesExact(v: int)
    ensures FromCtype(v).Success? <==> v in AcceptedCodes
    ensures |AcceptedCodes| == 16
  {
  }

  /** `AcceptedCodes` holds exactly the declared codes of the sixteen types,
      so no declared code is missing from the decoder and no undeclared one is
      accepted. */
  lemma AcceptedCodesDeclared()
    ensures AcceptedCodes == set t | t in AllTypes :: Code(t)
  {
    var declared := set t | t in AllTypes :: Code(t);
    forall c | c in AcceptedCodes ensures c in declared {
      AcceptedCodesExact(c);
      var t := FromCtype(c).value;
      AllTypesComplete(t);
    }
    forall c | c in declared ensures c in AcceptedCodes {
      var t :| t in AllTypes && Code(t) == c;
      FromCtypeOfCode(t);
      AcceptedCodesExact(c);
    }
  }

  /** Accepted codes are write codes or feature codes, never both. */
  lemma CodeRangesDisjoint(v: int)
    ensures v in AcceptedCodes <==> IsWriteCode(v) || IsFeatureCode(v)
    ensures !(IsWriteCode(v) && IsFeatureCode(v))
  {
  }

  /** Every value outside the sixteen codes fails, carrying itself: zero, 0x09,
      0x0F, 0x10, everything from 0x14 up and every negative value. */
  lemma FromCtypeRejects(v: int)
    requires v <= 0x00 || v == 0x09 || v == 0x0F || v == 0x10 || v >= 0x14
    ensures FromCtype(v) == Failure(InvalidFfbType(v))
  {
  }

  /** The error message names the value: different values give different
      messages. */
  lemma MessageIdentifiesValue(e: FfbTypeError, f: FfbTypeError)
    ensures Message(e) == Message(f) ==> e == f
  {
    if Message(e) == Message(f) {
      Decimal.IntToDecimalInjective(e.value, f.value);
    }
  }

  /** Three sample decodings: 0x0B is a block-free report, 0x13 a pool report, and
      0x09 is refused with the message naming 9. */
  lemma FromCtypeExamples()
    ensures FromCtype(0x0B) == Success(PT_BLKFRREP)
    ensures FromCtype(0x03 + 0x10) == Success(PT_POOLREP)
    ensures FromCtype(0x09) == Failure(InvalidFfbType(9))
    ensures Message(InvalidFfbType(9)) == "Invalid ffb type value 9"
  {
  }

  // ---------------------------------------------------------------------------
  // Locating the DLL

  /** The file name of the vJoy library. */
  const DllName: string := "vJoyInterface.dll"

  /** The error raised when neither candidate file exists. */
  datatype LoadError = UnableToLocateDll

  /** The text of that error, which no decoder error message can be
      mistaken for. */
  function LoadErrorMessage(e: LoadError): (m: string)
    ensures |m| > 0
    ensures forall f :: m != Message(f)
  {
    var m := "Unable to locate vjoy dll";
    assert forall f :: Message(f)[0] == MessagePrefix[0] != m[0];
    m
  }

  predicate IsSeparator(c: char) {
    c == '\\' || c == '/'
  }

  /** `os.path.join(dir, "vJoyInterface.dll")` with Windows path rules: the
      name alone for an empty directory, appended directly after a trailing
      separator, and after an inserted backslash otherwise. */
  function DevPath(dir: string): (p: string)
    ensures |p| >= |dir| + |DllName| && p[|p| - |DllName|..] == DllName
    ensures dir == [] <==> p == DllName
    ensures p[..|dir|] == dir
    ensures dir != [] && IsSeparator(dir[|dir| - 1]) ==> |p| == |dir| + |DllName|
    ensures dir != [] && !IsSeparator(dir[|dir| - 1]) ==> |p| == |dir| + 1 + |DllName| && p[|dir|] == '\\'
  {
    if dir == [] then DllName
    else if IsSeparator(dir[|dir| - 1]) then dir + DllName
    else dir + "\\" + DllName
  }

  /** The path the binding loads: the working-directory file when it exists,
      otherwise the file next to the module (`moduleDir` is the directory of
      its own source file), otherwise an error. `isFile` stands for the
      filesystem's answer to `os.path.isfile`. */
  function SelectDllPath(isFile: string -> bool, moduleDir: string): (r: Result<string, LoadError>)
    ensures r.Success? ==> isFile(r.value)
    ensures r.Success? ==> r.value == DllName || r.value == DevPath(moduleDir)
    ensures r.Failure? <==> !isFile(DllName) && !isFile(DevPath(moduleDir))
  {
    var devPath := DevPath(moduleDir);
    if isFile(DllName) then Success(DllName)
    else if isFile(devPath) then Success(devPath)
    else Failure(UnableToLocateDll)
  }

  /** The working directory wins whenever its file exists, whatever the
      development path holds. */
  lemma WorkingDirectoryPreferred(isFile: string -> bool, moduleDir: string)
    requires isFile(DllName)
    ensures SelectDllPath(isFile, moduleDir) == Success(DllName)
  {
  }

  /** Without a working-directory file, the development path is chosen when
      its file exists. */
  lemma DevPathFallback(isFile: string -> bool, moduleDir: string)
    requires !isFile(DllName) && isFile(DevPath(moduleDir))
    ensures SelectDllPath(isFile, moduleDir) == Success(DevPath(moduleDir))
  {
  }
}
