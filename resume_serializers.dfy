// The résumé serializer's three field checks: e-mail, name and uploaded file.
module ResumeSerializers {
  import opened Common
  import opened Strings

  const EmptyEmailError: string := "邮箱不能为空"
  const ShortNameError: string := "姓名至少需要2个字符"
  const FileTooLargeError: string := "文件大小不能超过10MB"
  const FileTypeError: string := "只支持PDF、DOC、DOCX格式的文件"

  /** The largest accepted upload: 10 MB. */
  const MaxFileSize: int := 10 * 1024 * 1024

  /** The content types of PDF, DOC and DOCX files. */
  const AllowedTypes: seq<string> := [
    "application/pdf", "application/msword",
    "application/vnd.openxmlformats-officedocument.wordprocessingml.document"]

  /** `validate_email`: an empty address is rejected, any other returned as given. */
  function ValidateEmail(value: string): (r: Result<string, string>)
    ensures r.Err? <==> |value| == 0
    ensures r.Ok? ==> r.value == value
    ensures r.Err? ==> r.error == EmptyEmailError
  {
    if |value| == 0 then Err(EmptyEmailError) else Ok(value)
  }

  /** `validate_name`: the stripped name must have at least two characters, and the stripped name is kept. */
  function ValidateName(value: string): (r: Result<string, string>)
    ensures r.Err? <==> |Strip(value)| < 2
    ensures r.Ok? ==> r.value == Strip(value) && |r.value| >= 2
    ensures r.Ok? ==> !IsSpace(r.value[0]) && !IsSpace(r.value[|r.value| - 1])
    ensures r.Err? ==> r.error == ShortNameError
  {
    if |value| == 0 || |Strip(value)| < 2 then Err(ShortNameError) else Ok(Strip(value))
  }

  /** A name that passed passes again unchanged. */
  lemma ValidateNameIdempotent(value: string)
    requires ValidateName(value).Ok?
    ensures ValidateName(ValidateName(value).value) == ValidateName(value)
  {
    StripIdempotent(value);
  }

  /** Surrounding whitespace does not count towards the two characters. */
  lemma PaddedInitialRejected(c: char)
    requires !IsSpace(c)
    ensures ValidateName([' ', c, ' ']).Err?
  {
    assert Strip([' ', c, ' ']) == [c] by {
      assert StripLeft([' ', c, ' ']) == StripLeft([c, ' ']);
      assert StripRight([c, ' ']) == StripRight([c]);
    }
  }

  /** An uploaded file: its size in bytes and the content type the client declared. */
  datatype Upload = Upload(size: int, contentType: string)

  /**
   * `validate_resume_file`: no file passes; a file above 10 MB is rejected,
   * then one whose content type is not PDF, DOC or DOCX.
   */
  function ValidateResumeFile(value: Option<Upload>): (r: Result<Option<Upload>, string>)
    ensures r.Ok? <==> value.None? || (value.value.size <= MaxFileSize && value.value.contentType in AllowedTypes)
    ensures r.Ok? ==> r.value == value
    ensures value.Some? && value.value.size > MaxFileSize ==> r == Err(FileTooLargeError)
    ensures value.Some? && value.value.size <= MaxFileSize && value.value.contentType !in AllowedTypes ==> r == Err(FileTypeError)
  {
    if value.None? then Ok(value)
    else if value.value.size > MaxFileSize then Err(FileTooLargeError)
    else if value.value.contentType !in AllowedTypes then Err(FileTypeError)
    else Ok(value)
  }

  /** A PDF of exactly 10 MB is accepted; one byte more is not. */
  lemma SizeLimitExact()
    ensures ValidateResumeFile(Some(Upload(10485760, "application/pdf"))).Ok?
    ensures ValidateResumeFile(Some(Upload(10485761, "application/pdf"))) == Err(FileTooLargeError)
  {
  }
}
