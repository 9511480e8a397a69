/**
 * Connection settings of one request (CommStatusBase.java): the URL, the data
 * string and whether the request is sent as Http/Post or Http/Get.
 */
module CommStatus {

  /** The closed two-value sending mode. */
  datatype CommType = HttpPost | HttpGet

  class StatusBase {
    var url: string
    var dataStr: string
    var commType: CommType

    /** A fresh record: empty URL, empty data string, Http/Post. */
    constructor ()
      ensures url == "" && dataStr == "" && commType == HttpPost
      ensures GetOriginalURL() == "" && GetDataString() == "" && IsHttpPost()
    {
      url := "";
      dataStr := "";
      commType := HttpPost;
    }

    /** The URL actually sent: in this base class, the original URL unchanged. */
    function GetRequestURL(): string
      reads this
    {
      GetOriginalURL()
    }

    /** The base class sends no post body, whatever its fields hold. */
    function GetPostString(): (s: string)
      ensures |s| == 0
    {
      ""
    }

    method SetDataString(s: string)
      modifies this`dataStr
      ensures GetDataString() == s
    {
      dataStr := s;
    }

    function GetDataString(): string
      reads this
    {
      dataStr
    }

    method SetHttpType(t: CommType)
      modifies this`commType
      ensures commType == t
      ensures IsHttpPost() <==> t == HttpPost
      ensures IsHttpGet() <==> t == HttpGet
    {
      commType := t;
    }

    function IsHttpPost(): bool
      reads this
    {
      commType == HttpPost
    }

    /** Http/Get is exactly "not Http/Post": the type has only two values. */
    function IsHttpGet(): (r: bool)
      reads this
      ensures r == !IsHttpPost()
    {
      commType == HttpGet
    }

    method SetOriginalURL(u: string)
      modifies this`url
      ensures GetOriginalURL() == u && GetRequestURL() == u
    {
      url := u;
    }

    function GetOriginalURL(): string
      reads this
    {
      url
    }
  }
}
