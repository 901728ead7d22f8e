/** The avatar picker: it shows a local preview while a chosen image uploads, otherwise the
    stored avatar (absolute URLs as they are, relative paths under the API server's origin),
    checks that a chosen file is an image of at most 2 MiB, and reports the new avatar URL to
    its parent. The configured API URL is a parameter; the file's preview data, produced by
    the browser's file reader, is assumed loaded before the upload answers. */
module AvatarUpload {
  import opened Common
  import opened JsText

  const LocalOrigin := "http://localhost:5000"
  const MaxAvatarBytes := 2 * 1024 * 1024

  /** The origin as the source computes it: `apiUrl?.replace('/api', '') || LocalOrigin`.
      The FIRST '/api' anywhere in the URL is removed, which is not always the path. */
  function OriginAsWritten(apiUrl: Option<string>): (r: string)
    ensures apiUrl.None? ==> r == LocalOrigin
    ensures apiUrl.Some? && IndexOfFrom(apiUrl.value, "/api", 0).None? && apiUrl.value != "" ==>
              r == apiUrl.value
  {
    match apiUrl
    case None => LocalOrigin
    case Some(u) => OrElse(Some(ReplaceFirst(u, "/api", "")), LocalOrigin)
  }

  predicate EndsWith(s: string, suffix: string) {
    |suffix| <= |s| && s[|s| - |suffix|..] == suffix
  }

  /** The origin with the intended reading: a trailing '/api' path is dropped. */
  function Origin(apiUrl: Option<string>): (r: string)
    ensures apiUrl.None? ==> r == LocalOrigin
    ensures r != ""
  {
    match apiUrl
    case None => LocalOrigin
    case Some(u) =>
      var stripped := if EndsWith(u, "/api") then u[..|u| - 4] else u;
      OrElse(Some(stripped), LocalOrigin)
  }

  /** For any API URL of the form `<origin>/api`, the corrected reading gives back the
      origin. */
  lemma OriginStripsApiPath(origin: string)
    requires origin != ""
    ensures Origin(Some(origin + "/api")) == origin
  {
    var u := origin + "/api";
    assert u[|u| - 4..] == "/api";
    assert u[..|u| - 4] == origin;
  }

  /** 'https://api.example.com/api', written in the three parts that matter: the scheme up
      to its second slash, the '/api' made of that slash and the host's first letters, and
      the rest. */
  const ApiHostUrl := "https:/" + "/api" + ".example.com/api"

  /** In `ApiHostUrl` the first '/api' is the one at index 7, inside 'https://api'. */
  lemma FirstApiInHost()
    ensures IndexOfFrom(ApiHostUrl, "/api", 0) == Some(7)
  {
    var u := ApiHostUrl;
    assert u[7..11] == "/api";
    assert OccursAt(u, "/api", 7);
    forall k | 0 <= k < 7
      ensures !OccursAt(u, "/api", k)
    {
      if k < 6 {
        assert u[k..k + 4][0] == u[k];
      } else {
        assert u[k..k + 4][1] == u[7];
      }
    }
  }

  /** The source's replacement removes the '/api' inside 'https://api'. */
  lemma ReplaceInHost()
    ensures ReplaceFirst(ApiHostUrl, "/api", "") == "https:/" + ".example.com/api"
  {
    var u := ApiHostUrl;
    FirstApiInHost();
    assert u[..7] == "https:/";
    assert u[11..] == ".example.com/api";
  }

  /** On an API host whose name begins with 'api' the source removes the '/api' of
      'https://api...' instead of the path, and avatar URLs point at 'https:/.example.com/api',
      which is not the server; the corrected reading gives 'https://api.example.com'. */
  lemma OriginAsWrittenBreaksApiHost()
    ensures OriginAsWritten(Some(ApiHostUrl)) == "https:/" + ".example.com/api"
    ensures Origin(Some(ApiHostUrl)) == "https:/" + "/api" + ".example.com"
  {
    ReplaceInHost();
    var host := "https:/" + "/api" + ".example.com";
    assert ApiHostUrl == host + "/api";
    OriginStripsApiPath(host);
  }

  /** The source's reading and the corrected one agree on the development default and on
      every URL without '/api' in it. */
  lemma OriginsAgree(apiUrl: Option<string>)
    requires apiUrl.None? || (IndexOfFrom(apiUrl.value, "/api", 0).None? && apiUrl.value != "")
    ensures Origin(apiUrl) == OriginAsWritten(apiUrl)
  {
    if apiUrl.Some? {
      var u := apiUrl.value;
      if EndsWith(u, "/api") {
        assert OccursAt(u, "/api", |u| - 4);
      }
    }
  }

  /** `getAvatarUrl` as written: a preview wins; then a stored avatar, as is when it starts
      with 'http', else joined to the origin the source computes; else nothing. */
  function AvatarUrl(preview: Option<string>, avatar: Option<string>, apiUrl: Option<string>): (r: Option<string>)
    ensures Truthy(preview) ==> r == preview
    ensures !Truthy(preview) && !Truthy(avatar) ==> r.None?
    ensures !Truthy(preview) && Truthy(avatar) && StartsWith(avatar.value, "http") ==> r == avatar
    ensures !Truthy(preview) && Truthy(avatar) && !StartsWith(avatar.value, "http") ==>
              r == Some(OriginAsWritten(apiUrl) + "/" + avatar.value)
  {
    if Truthy(preview) then preview
    else if Truthy(avatar) then
      if StartsWith(avatar.value, "http") then avatar
      else Some(OriginAsWritten(apiUrl) + "/" + avatar.value)
    else None
  }

  /** `getAvatarUrl` with the corrected origin: a relative avatar of a server configured as
      `<origin>/api` is served from `<origin>`. */
  function AvatarUrlCorrected(preview: Option<string>, avatar: Option<string>, apiUrl: Option<string>): (r: Option<string>)
    ensures !Truthy(preview) && Truthy(avatar) && !StartsWith(avatar.value, "http") ==>
              r == Some(Origin(apiUrl) + "/" + avatar.value)
    ensures !(!Truthy(preview) && Truthy(avatar) && !StartsWith(avatar.value, "http")) ==>
              r == AvatarUrl(preview, avatar, apiUrl)
  {
    if !Truthy(preview) && Truthy(avatar) && !StartsWith(avatar.value, "http") then
      Some(Origin(apiUrl) + "/" + avatar.value)
    else AvatarUrl(preview, avatar, apiUrl)
  }

  /** With the server configured as `<origin>/api`, a relative avatar is served from
      `<origin>`. */
  lemma CorrectedAvatarUnderOrigin(origin: string, avatar: string)
    requires origin != "" && avatar != "" && !StartsWith(avatar, "http")
    ensures AvatarUrlCorrected(None, Some(avatar), Some(origin + "/api")) == Some(origin + "/" + avatar)
  {
    OriginStripsApiPath(origin);
  }

  /** On the Findings input a relative avatar 'u.png' resolves to
      'https:/.example.com/api/u.png' as written, and to 'https://api.example.com/u.png'
      corrected. */
  lemma AvatarUrlOnApiHost()
    ensures AvatarUrl(None, Some("u.png"), Some(ApiHostUrl))
              == Some("https:/" + ".example.com/api" + "/" + "u.png")
    ensures AvatarUrlCorrected(None, Some("u.png"), Some(ApiHostUrl))
              == Some("https:/" + "/api" + ".example.com" + "/" + "u.png")
  {
    OriginAsWrittenBreaksApiHost();
    assert !StartsWith("u.png", "http") by {
      assert "u.png"[0] != "http"[0];
    }
  }

  /** A chosen file: its MIME type and its size in bytes. */
  datatype FileInfo = FileInfo(mimeType: string, size: int)

  datatype FileDecision = NoFile | Reject(message: string) | Upload

  /** `handleFileSelect`'s checks: no file, then the type, then the size. */
  function CheckFile(file: Option<FileInfo>): (d: FileDecision)
    ensures d == NoFile <==> file.None?
    ensures d == Upload <==>
              file.Some? && StartsWith(file.value.mimeType, "image/") && file.value.size <= MaxAvatarBytes
    ensures file.Some? && !StartsWith(file.value.mimeType, "image/") ==>
              d == Reject("Please select an image file")
    ensures file.Some? && StartsWith(file.value.mimeType, "image/") && file.value.size > MaxAvatarBytes ==>
              d == Reject("File size must be less than 2MB")
  {
    match file
    case None => NoFile
    case Some(f) =>
      if !StartsWith(f.mimeType, "image/") then Reject("Please select an image file")
      else if f.size > MaxAvatarBytes then Reject("File size must be less than 2MB")
      else Upload
  }

  /** The size bound is inclusive: exactly 2 MiB is accepted, one byte more is not. */
  lemma SizeBoundary(mimeType: string)
    requires StartsWith(mimeType, "image/")
    ensures CheckFile(Some(FileInfo(mimeType, 2097152))) == Upload
    ensures CheckFile(Some(FileInfo(mimeType, 2097153))) == Reject("File size must be less than 2MB")
  {
  }

  datatype Effect = Alert(message: string) | UploadRequest | AvatarUpdated(url: string) | OpenFilePicker

  class Picker {
    const disabled: bool
    var isUploading: bool
    var previewUrl: Option<string>
    /** The file input's value, cleared after every upload. */
    var fileInputValue: string

    constructor(disabled: bool)
      ensures this.disabled == disabled && !isUploading && previewUrl.None? && fileInputValue == ""
    {
      this.disabled := disabled;
      isUploading := false;
      previewUrl := None;
      fileInputValue := "";
    }

    /** `uploadAvatar`: only success reports the new URL; either way the preview and the
        file input are cleared and the upload is over. */
    method UploadAvatar(answer: Outcome<string>) returns (effects: seq<Effect>)
      modifies this`isUploading, this`previewUrl, this`fileInputValue
      ensures !isUploading && previewUrl.None? && fileInputValue == ""
      ensures answer.Ok? ==> effects == [UploadRequest, AvatarUpdated(answer.value)]
      ensures answer.Err? ==> effects == [UploadRequest, Alert(ErrorText(answer, "Failed to upload avatar"))]
    {
      isUploading := true;
      if answer.Ok? {
        effects := [UploadRequest, AvatarUpdated(answer.value)];
      } else {
        effects := [UploadRequest, Alert(ErrorText(answer, "Failed to upload avatar"))];
      }
      previewUrl := None;
      isUploading := false;
      fileInputValue := "";
    }

    /** `handleFileSelect`: a rejected file is only reported; an accepted one is previewed
        and uploaded. */
    method HandleFileSelect(file: Option<FileInfo>, previewData: string, answer: Outcome<string>)
      returns (effects: seq<Effect>)
      modifies this`isUploading, this`previewUrl, this`fileInputValue
      ensures CheckFile(file) == NoFile ==>
                effects == [] && previewUrl == old(previewUrl) && isUploading == old(isUploading)
                && fileInputValue == old(fileInputValue)
      ensures CheckFile(file).Reject? ==>
                effects == [Alert(CheckFile(file).message)] && previewUrl == old(previewUrl)
                && isUploading == old(isUploading) && fileInputValue == old(fileInputValue)
      ensures CheckFile(file) == Upload ==>
                !isUploading && previewUrl.None? && fileInputValue == "" && |effects| == 2
                && effects[0] == UploadRequest
      ensures CheckFile(file) == Upload && answer.Ok? ==> effects[1] == AvatarUpdated(answer.value)
      ensures CheckFile(file) == Upload && answer.Err? ==>
                effects[1] == Alert(ErrorText(answer, "Failed to upload avatar"))
    {
      match CheckFile(file) {
        case NoFile =>
          effects := [];
        case Reject(message) =>
          effects := [Alert(message)];
        case Upload =>
          previewUrl := Some(previewData);
          effects := UploadAvatar(answer);
      }
    }

    /** `handleClick`: opens the file picker unless disabled. */
    method HandleClick() returns (effects: seq<Effect>)
      ensures effects == (if disabled then [] else [OpenFilePicker])
    {
      effects := if disabled then [] else [OpenFilePicker];
    }
  }
}
