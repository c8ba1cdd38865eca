/** The value types the client exchanges with its callers and with the
    licensing service (src/types/api.ts). They carry no behaviour. */
module ApiTypes {
  import opened Wrappers
  import opened Json

  /** The outcome of a validation, derived from the HTTP status code alone. */
  datatype LicenseStatus = Valid | Invalid | Expired | LimitReached | NotFound | InternalServerError

  datatype HttpMethod = GET | POST

  /** Construction-time settings; an absent `timeout` is `None`. */
  datatype ApiConfig = ApiConfig(baseUrl: string, apiKey: string, timeout: Option<int>)

  /** What the caller asks the service to validate. */
  datatype Payload = Payload(license: string, application: string, hwid: Option<string>)
  {
    /** The payload as the JSON object handed to the encoder; an absent `hwid`
        is not a property of the object. */
    function ToJson(): (j: Json)
      ensures j.Obj?
      ensures "license" in j.fields && j.fields["license"] == Str(license)
      ensures "application" in j.fields && j.fields["application"] == Str(application)
      ensures "hwid" in j.fields <==> hwid.Some?
      ensures hwid.Some? ==> j.fields["hwid"] == Str(hwid.value)
      ensures j.fields.Keys <= {"license", "application", "hwid"}
    {
      var required := map["license" := Str(license), "application" := Str(application)];
      match hwid
      case None => Obj(required)
      case Some(h) => Obj(required["hwid" := Str(h)])
    }
  }

  /** The `{status, data}` record an ApiError carries as its `data`. */
  datatype ApiResponse = ApiResponse(status: int, data: Json)
}
