/**
 * The Transfer record of the url-copy worker: one file to copy, built either
 * from a line of a bulk transfer file or from the command line options.
 * Transfer is a C++ value type, copied by value; setChecksum is modelled as
 * the record it produces.
 */
module UrlTransfer {
  import opened Wrappers
  import opened Text
  import UrlCopyArgs

  /**
   * The integer and string members of Transfer. userFileSize and throughput
   * are doubles and are not modelled; times are in milliseconds.
   */
  datatype Transfer = Transfer(
    fileId: int,
    jobId: string,
    sourceUrl: string,
    destUrl: string,
    checksumAlgorithm: string,
    checksumValue: string,
    fileMetadata: string,
    tokenBringOnline: string,
    startTime: int,
    finishTime: int,
    fileSize: int,
    transferredBytes: int)

  /** A default-constructed Transfer: numbers zero, strings empty. */
  const DefaultTransfer := Transfer(0, "", "", "", "", "", "", "", 0, 0, 0, 0)

  /** setChecksum's split: before and after the first ':', or the whole text and "". */
  function SplitChecksum(checksum: string): (r: (string, string))
    ensures ':' !in r.0
    ensures ':' !in checksum ==> r == (checksum, "")
    ensures ':' in checksum ==> r.0 + ":" + r.1 == checksum
  {
    match IndexOf(checksum, ':')
    case None => (checksum, "")
    case Some(colon) =>
      assert checksum == checksum[..colon] + ":" + checksum[colon + 1..];
      (checksum[..colon], checksum[colon + 1..])
  }

  /** setChecksum: only the two checksum fields change. */
  function SetChecksum(t: Transfer, checksum: string): (r: Transfer)
    ensures ':' !in r.checksumAlgorithm
    ensures ':' !in checksum ==> r.checksumAlgorithm == checksum && r.checksumValue == ""
    ensures ':' in checksum ==> r.checksumAlgorithm + ":" + r.checksumValue == checksum
    ensures r.(checksumAlgorithm := t.checksumAlgorithm, checksumValue := t.checksumValue) == t
  {
    var (alg, value) := SplitChecksum(checksum);
    t.(checksumAlgorithm := alg, checksumValue := value)
  }

  /** An algorithm without ':' and any value split back into themselves. */
  lemma SplitChecksumRoundTrip(alg: string, value: string)
    requires ':' !in alg
    ensures SplitChecksum(alg + ":" + value) == (alg, value)
  {
    var s := alg + ":" + value;
    assert s[..|alg|] == alg && s[|alg|] == ':';
    assert IndexOf(s, ':') == Some(|alg|);
    assert s[|alg| + 1..] == value;
  }

  /** Later colons stay in the value. */
  lemma SplitChecksumKeepsLaterColons(alg: string, value: string)
    requires ':' !in alg && ':' in value
    ensures ':' in SplitChecksum(alg + ":" + value).1
  {
    SplitChecksumRoundTrip(alg, value);
  }

  /** getTransferDurationInSeconds in milliseconds (the double division by 1000 is left out). */
  function DurationMillis(t: Transfer): (r: int)
    ensures t.startTime == 0 || t.finishTime == 0 ==> r == 0
    ensures t.startTime != 0 && t.finishTime != 0 ==> r + t.startTime == t.finishTime
  {
    if t.startTime == 0 || t.finishTime == 0 then 0 else t.finishTime - t.startTime
  }

  /** Why createFromString throws: a field that boost::lexical_cast could not convert. */
  datatype CastError = BadFileId(token: string) | BadUserFileSize(token: string)

  /** The first seven tokens, the missing ones "" (the std::string strArray[7]). */
  function Fields(tokens: seq<string>): (r: seq<string>)
    requires |tokens| <= 7
    ensures |r| == 7
    ensures forall i :: 0 <= i < |tokens| ==> r[i] == tokens[i]
    ensures forall i :: |tokens| <= i < 7 ==> r[i] == ""
  {
    tokens + seq(7 - |tokens|, _ => "")
  }

  /**
   * createFromString: split the line on spaces, dropping empty tokens, and
   * assign the tokens in order to fileId, source, destination, checksum, user
   * file size, file metadata and bring-online token. At most seven tokens fit
   * in the array std::copy writes into. Whether lexical_cast<double> accepts
   * the size token is given by `isDouble`, since floating point is not modelled.
   */
  function CreateFromString(jobId: string, line: string, isDouble: string -> bool): (r: Result<Transfer, CastError>)
    requires |Tokens(line, ' ')| <= 7
    ensures r.Ok? ==> r.value.jobId == jobId
    ensures r.Ok? ==> |Tokens(line, ' ')| >= 1 && LexUnsigned(Tokens(line, ' ')[0]) == Some(r.value.fileId)
    ensures r.Err? && r.error.BadFileId? ==> LexUnsigned(Fields(Tokens(line, ' '))[0]).None?
    ensures r.Err? && r.error.BadUserFileSize? ==> !isDouble(Fields(Tokens(line, ' '))[4])
    ensures r.Ok? <==> LexUnsigned(Fields(Tokens(line, ' '))[0]).Some? && isDouble(Fields(Tokens(line, ' '))[4])
    ensures r.Ok? ==> var f := Fields(Tokens(line, ' '));
      r.value.sourceUrl == f[1] && r.value.destUrl == f[2] &&
      (r.value.checksumAlgorithm, r.value.checksumValue) == SplitChecksum(f[3]) &&
      r.value.fileMetadata == f[5] && r.value.tokenBringOnline == f[6]
    ensures r.Ok? ==> r.value.startTime == 0 && r.value.finishTime == 0
    ensures r.Ok? ==> r.value.fileSize == 0 && r.value.transferredBytes == 0
  {
    var f := Fields(Tokens(line, ' '));
    match LexUnsigned(f[0])
    case None => Err(BadFileId(f[0]))
    case Some(id) =>
      var t := DefaultTransfer.(jobId := jobId, fileId := id, sourceUrl := f[1], destUrl := f[2]);
      var t := SetChecksum(t, f[3]);
      if !isDouble(f[4]) then Err(BadUserFileSize(f[4]))
      else Ok(t.(fileMetadata := f[5], tokenBringOnline := f[6]))
  }

  /** The fields of a Transfer that createFromString reads, as one line (checksum as alg:value). */
  function ToLine(t: Transfer, sizeText: string): string {
    Join([IntToString(t.fileId), t.sourceUrl, t.destUrl,
          t.checksumAlgorithm + ":" + t.checksumValue, sizeText,
          t.fileMetadata, t.tokenBringOnline], ' ')
  }

  predicate IsWord(s: string) {
    s != "" && ' ' !in s
  }

  /**
   * Writing a transfer as a line and reading it back gives the same transfer,
   * when every field is a non-empty word, the algorithm has no ':' and the
   * size token converts.
   */
  lemma CreateFromStringRoundTrip(t: Transfer, sizeText: string, isDouble: string -> bool)
    requires 0 <= t.fileId < UInt32Limit
    requires IsWord(t.sourceUrl) && IsWord(t.destUrl) && IsWord(sizeText)
    requires IsWord(t.fileMetadata) && IsWord(t.tokenBringOnline)
    requires ':' !in t.checksumAlgorithm
    requires ' ' !in t.checksumAlgorithm && ' ' !in t.checksumValue
    requires t.startTime == 0 && t.finishTime == 0 && t.fileSize == 0 && t.transferredBytes == 0
    requires isDouble(sizeText)
    ensures |Tokens(ToLine(t, sizeText), ' ')| == 7
    ensures CreateFromString(t.jobId, ToLine(t, sizeText), isDouble) == Ok(t)
  {
    var words := [IntToString(t.fileId), t.sourceUrl, t.destUrl,
                  t.checksumAlgorithm + ":" + t.checksumValue, sizeText,
                  t.fileMetadata, t.tokenBringOnline];
    assert ' ' !in IntToString(t.fileId) by {
      assert AllDigits(NatToString(t.fileId));
    }
    assert ' ' !in t.checksumAlgorithm + ":" + t.checksumValue;
    TokensOfJoin(words, ' ');
    ParseSignedOfIntToString(t.fileId);
    SplitChecksumRoundTrip(t.checksumAlgorithm, t.checksumValue);
    assert Fields(words) == words;
  }

  /** With five or six tokens the missing trailing fields are left empty. */
  lemma MissingTrailingFieldsAreEmpty(jobId: string, line: string, isDouble: string -> bool)
    requires |Tokens(line, ' ')| <= 7
    requires CreateFromString(jobId, line, isDouble).Ok?
    ensures |Tokens(line, ' ')| <= 6 ==> CreateFromString(jobId, line, isDouble).value.tokenBringOnline == ""
    ensures |Tokens(line, ' ')| <= 5 ==> CreateFromString(jobId, line, isDouble).value.fileMetadata == ""
  {
  }

  /** A line without tokens fails on the file id, whatever the size parser accepts. */
  lemma EmptyLineFails(jobId: string, line: string, isDouble: string -> bool)
    requires Tokens(line, ' ') == []
    ensures CreateFromString(jobId, line, isDouble) == Err(BadFileId(""))
  {
    assert Fields([])[0] == "";
  }

  /** A transfer read from a line has not started: both times are 0, and so is its duration. */
  lemma CreatedTransferHasNoDuration(jobId: string, line: string, isDouble: string -> bool)
    requires |Tokens(line, ' ')| <= 7
    requires CreateFromString(jobId, line, isDouble).Ok?
    ensures CreateFromString(jobId, line, isDouble).value.startTime == 0
    ensures CreateFromString(jobId, line, isDouble).value.finishTime == 0
    ensures DurationMillis(CreateFromString(jobId, line, isDouble).value) == 0
    ensures CreateFromString(jobId, line, isDouble).value.fileSize == 0
    ensures CreateFromString(jobId, line, isDouble).value.transferredBytes == 0
  {
  }

  /**
   * createFromOptions: job id, file id, URLs, file metadata and bring-online
   * token are copied from the options ('a', 'B', 'b', 'c', 'K', 'L'), and the
   * checksum option 'z' is split as by setChecksum.
   */
  function CreateFromOptions(opts: UrlCopyArgs.Opts): (t: Transfer)
    requires opts.Complete()
    ensures t.jobId == opts.strings['a'] && t.fileId == opts.numbers['B']
    ensures t.sourceUrl == opts.strings['b'] && t.destUrl == opts.strings['c']
    ensures t.fileMetadata == opts.strings['K'] && t.tokenBringOnline == opts.strings['L']
    ensures ':' !in t.checksumAlgorithm
    ensures ':' in opts.strings['z'] ==> t.checksumAlgorithm + ":" + t.checksumValue == opts.strings['z']
    ensures ':' !in opts.strings['z'] ==> t.checksumAlgorithm == opts.strings['z'] && t.checksumValue == ""
    ensures t.startTime == 0 && t.finishTime == 0 && DurationMillis(t) == 0
    ensures t.fileSize == 0 && t.transferredBytes == 0
  {
    var t := DefaultTransfer.(
      jobId := opts.strings['a'], fileId := opts.numbers['B'],
      sourceUrl := opts.strings['b'], destUrl := opts.strings['c']);
    var t := SetChecksum(t, opts.strings['z']);
    t.(fileMetadata := opts.strings['K'], tokenBringOnline := opts.strings['L'])
  }
}
