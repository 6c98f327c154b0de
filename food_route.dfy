/** The server's food endpoints (server/app/routes/food.py): image
    recognition, which validates the upload and relays it to the ML service,
    and the fixed catalogue of popular dishes. The HTTP client call is not
    modelled: its outcome is an input. */
module FoodRoute {
  import opened Support

  const DefaultMlServiceUrl := "http://localhost:8001"
  const NotAnImage := "File must be an image"
  const RecognitionFailedPrefix := "Recognition failed: "
  /** `str()` of the HTTPException(500, "ML service error") raised inside the
      `try`, in Starlette's "<status>: <detail>" form. */
  const MlServiceErrorText := "500: ML service error"

  /** The multipart `image` part; its content type is None when the part
      carries no Content-Type header. */
  datatype Upload = Upload(filename: string, contentType: Option<string>, content: seq<byte>)

  /** The multipart request to the ML service: one file field with its
      name, bytes and content type. */
  datatype MlRequest = MlRequest(url: string, field: string, filename: string, content: seq<byte>, contentType: string)

  /** What the ML service call produced; `J` is the type of a JSON value. */
  datatype MlReply<J> =
    | MlResponded(status: nat, body: Result<J, string>)   // Err: the JSON decoder's message
    | MlUnreachable(message: string)                      // a transport exception's message

  datatype Recognition<J> = Recognition(request: Option<MlRequest>, response: Result<J, HttpError>)

  /** `os.getenv("ML_SERVICE_URL", default)`: the default is used only when
      the variable is unset (an empty value is kept). */
  function MlServiceUrl(setting: Option<string>): (r: string)
    ensures setting.Some? ==> r == setting.value
    ensures setting.None? ==> r == DefaultMlServiceUrl
  {
    if setting.Some? then setting.value else DefaultMlServiceUrl
  }

  predicate IsImage(contentType: string) {
    StartsWith(contentType, "image/")
  }

  /** The upload passes validation and is forwarded to the ML service. */
  predicate Forwarded(upload: Option<Upload>) {
    upload.Some? && upload.value.contentType.Some? && IsImage(upload.value.contentType.value)
  }

  /** `recognize_food`. Without an `image` part FastAPI refuses the request
      with a 422. A part without a content type makes `startswith` fail
      before the `try`, which the framework turns into a bare 500. A
      non-image upload is refused with a 400 before the ML service is
      contacted; otherwise the image is forwarded and a 200 reply's JSON is
      returned as it is, while every other outcome, the service's own error
      status included, is caught by the `except` and becomes a 500 whose
      detail starts with "Recognition failed: ". */
  function RecognizeFood<J>(mlServiceUrl: string, upload: Option<Upload>, reply: MlReply<J>): (r: Recognition<J>)
    ensures !Forwarded(upload) <==> r.request.None?
    ensures upload.None? ==> r.response.Err? && r.response.error.status == MissingFieldStatus
    ensures upload.Some? && upload.value.contentType.None? ==> r.response == Err(InternalServerError)
    ensures upload.Some? && upload.value.contentType.Some? && !IsImage(upload.value.contentType.value) ==>
              r.response == Err(HttpError(400, NotAnImage))
    ensures Forwarded(upload) ==>
              r.request == Some(MlRequest(mlServiceUrl + "/predict", "image", upload.value.filename,
                                          upload.value.content, upload.value.contentType.value))
    ensures Forwarded(upload) ==>
              (r.response.Ok? <==> reply.MlResponded? && reply.status == 200 && reply.body.Ok?)
    ensures Forwarded(upload) && r.response.Ok? ==> r.response.value == reply.body.value
    ensures Forwarded(upload) && r.response.Err? ==>
              r.response.error.status == 500 &&
              StartsWith(r.response.error.detail, RecognitionFailedPrefix)
    ensures Forwarded(upload) && reply.MlResponded? && reply.status != 200 ==>
              r.response == Err(HttpError(500, RecognitionFailedPrefix + MlServiceErrorText))
    ensures Forwarded(upload) && reply.MlUnreachable? ==>
              r.response == Err(HttpError(500, RecognitionFailedPrefix + reply.message))
  {
    match upload
    case None => Recognition(None, Err(HttpError(MissingFieldStatus, "Field required: image")))
    case Some(file) =>
      match file.contentType
      case None => Recognition(None, Err(InternalServerError))
      case Some(contentType) =>
        if !IsImage(contentType) then
          Recognition(None, Err(HttpError(400, NotAnImage)))
        else
          var request := MlRequest(mlServiceUrl + "/predict", "image", file.filename, file.content, contentType);
          var response := (
            match reply
            case MlUnreachable(message) => Err(HttpError(500, RecognitionFailedPrefix + message))
            case MlResponded(status, body) =>
              if status != 200 then Err(HttpError(500, RecognitionFailedPrefix + MlServiceErrorText))
              else (
                match body
                case Err(message) => Err(HttpError(500, RecognitionFailedPrefix + message))
                case Ok(json) => Ok(json)));
          Recognition(Some(request), response)
  }

  datatype Dish = Dish(id: nat, name: string, category: string)

  /** `get_popular_dishes`: a constant catalogue. */
  function PopularDishes(): (dishes: seq<Dish>)
    ensures |dishes| == 5
    ensures forall i :: 0 <= i < |dishes| ==> dishes[i].id == i + 1
  {
    [ Dish(1, "Pizza", "Italian"),
      Dish(2, "Burger", "American"),
      Dish(3, "Sushi", "Japanese"),
      Dish(4, "Tacos", "Mexican"),
      Dish(5, "Pasta", "Italian") ]
  }

  /** The catalogue's ids are pairwise distinct. */
  lemma DishIdsDistinct()
    ensures forall i, j :: 0 <= i < j < |PopularDishes()| ==> PopularDishes()[i].id != PopularDishes()[j].id
  {
  }
}
