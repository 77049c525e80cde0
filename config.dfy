/** The backend's settings object: the values the core reads and the lists derived from them. */
module Config {
  import opened Text

  /**
   * The settings the modelled endpoints and services read. Secrets, database and OAuth
   * client settings are required environment values with no default and are not modelled.
   */
  datatype Settings = Settings(
    accessTokenExpireMinutes: int,
    refreshTokenExpireDays: int,
    stripePriceIdBasic: string,
    stripePriceIdPro: string,
    frontendUrl: string,
    allowedOrigins: string,
    maxFileSizeMb: int,
    allowedFileTypes: string,
    uploadDir: string,
    basicSummariesPerMonth: int,
    proSummariesPerMonth: int
  )

  const PDF_TYPE: string := "application/pdf"
  /** The DOCX media type, written in its dot-separated parts. */
  const DOCX_TYPE: string := "application/" + "vnd.openxmlformats-" + "officedocument." + "wordprocessingml." + "document"

  /** The settings when no environment variable overrides them. */
  const DEFAULTS: Settings := Settings(
    accessTokenExpireMinutes := 30,
    refreshTokenExpireDays := 7,
    stripePriceIdBasic := "",
    stripePriceIdPro := "",
    frontendUrl := "http://localhost:3000",
    allowedOrigins := "http://localhost:3000,http://localhost:8000,http://145.132.98.59:3000,http://145.132.98.59:8000",
    maxFileSizeMb := 10,
    allowedFileTypes := PDF_TYPE + "," + DOCX_TYPE,
    uploadDir := "./uploads",
    basicSummariesPerMonth := 100,
    proSummariesPerMonth := 500
  )

  /** `[item.strip() for item in raw.split(",")]`. */
  function CommaList(raw: string): (items: seq<string>)
    ensures |items| == |Split(raw, ',')| == multiset(raw)[','] + 1
    ensures forall i :: 0 <= i < |items| ==> items[i] == Strip(Split(raw, ',')[i])
  {
    var parts := Split(raw, ',');
    SplitCount(raw, ',');
    StripAll(parts)
  }

  function StripAll(parts: seq<string>): (r: seq<string>)
    ensures |r| == |parts| && forall i :: 0 <= i < |parts| ==> r[i] == Strip(parts[i])
  {
    if |parts| == 0 then [] else [Strip(parts[0])] + StripAll(parts[1..])
  }

  function AllowedOriginsList(cfg: Settings): seq<string>
  {
    CommaList(cfg.allowedOrigins)
  }

  function AllowedFileTypesList(cfg: Settings): seq<string>
  {
    CommaList(cfg.allowedFileTypes)
  }

  /** The upload limit in bytes: the configured number of mebibytes. */
  function MaxFileSizeBytes(cfg: Settings): (n: int)
    ensures n == cfg.maxFileSizeMb * 1048576
  {
    cfg.maxFileSizeMb * 1024 * 1024
  }

  /** The default upload limit is ten mebibytes. */
  lemma DefaultMaxFileSize()
    ensures MaxFileSizeBytes(DEFAULTS) == 10485760
  {
  }

  /** A comma list of items that hold no comma and no surrounding whitespace reads back as those items. */
  lemma {:induction false} CommaListOfJoin(items: seq<string>)
    requires |items| >= 1
    requires forall i :: 0 <= i < |items| ==> ',' !in items[i]
    requires forall i :: 0 <= i < |items| ==> items[i] == [] || (!IsSpace(items[i][0]) && !IsSpace(items[i][|items[i]| - 1]))
    ensures CommaList(Join(items, [','])) == items
  {
    SplitJoin(items, ',');
    StripAllUnpadded(items);
  }

  /** Stripping items that carry no surrounding whitespace leaves them as they are. */
  lemma StripAllUnpadded(items: seq<string>)
    requires forall i :: 0 <= i < |items| ==> items[i] == [] || (!IsSpace(items[i][0]) && !IsSpace(items[i][|items[i]| - 1]))
    ensures StripAll(items) == items
  {
    var r := StripAll(items);
    forall i | 0 <= i < |items|
      ensures r[i] == items[i]
    {
      StripUnpadded(items[i]);
    }
  }

  /** By default exactly PDF and DOCX uploads are accepted. */
  lemma DefaultFileTypes()
    ensures AllowedFileTypesList(DEFAULTS) == [PDF_TYPE, DOCX_TYPE]
  {
    var items := [PDF_TYPE, DOCX_TYPE];
    assert Join(items, [',']) == PDF_TYPE + "," + DOCX_TYPE;
    assert ',' !in "application/" && ',' !in "vnd.openxmlformats-" && ',' !in "officedocument.";
    assert ',' !in "wordprocessingml." && ',' !in "document";
    assert DOCX_TYPE[0] == 'a' && DOCX_TYPE[|DOCX_TYPE| - 1] == 't';
    CommaListOfJoin(items);
  }
}
