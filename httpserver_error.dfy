/**
 * How the HTTP server answers a failed request (pkg/server/httpserver/error.go): the body is the
 * error's text and the status comes from the orchestrator's sentinel errors, unless the handler
 * gave one itself.
 */
module HttpServerErrors {
  import opened ServerSpec

  const StatusNotFound := 404
  const StatusInternalServerError := 500

  const CodeDeviceIsBusy := StatusInternalServerError
  const CodeDeviceNotFound := StatusNotFound
  const CodePortIsBusy := StatusInternalServerError
  const CodePortNotFound := StatusNotFound

  /** The handler's `statusCode` argument meaning "pick one from the error". */
  const NoStatus := -1

  /** The status the switch picks (error.go:25-36): sentinels are matched by identity. */
  function SentinelStatus(err: Error): (code: int)
    ensures code == StatusNotFound <==> err == DeviceNotFound || err == PortNotFound
    ensures code == StatusInternalServerError <==> !(err == DeviceNotFound || err == PortNotFound)
  {
    match err
    case DeviceIsBusy => CodeDeviceIsBusy
    case DeviceNotFound => CodeDeviceNotFound
    case PortIsBusy => CodePortIsBusy
    case PortNotFound => CodePortNotFound
    case Failure(_) => StatusInternalServerError
  }

  /** A fasthttp response, as far as ErrorProcessing writes it. */
  class Response {
    var body: string
    var statusCode: int

    constructor ()
      ensures body == "" && statusCode == 200
    {
      body := "";
      statusCode := 200;
    }

    method SetBody(b: string)
      modifies this
      ensures body == b && statusCode == old(statusCode)
    {
      body := b;
    }

    method SetStatusCode(code: int)
      modifies this
      ensures statusCode == code && body == old(body)
    {
      statusCode := code;
    }
  }

  /**
   * ErrorProcessing (error.go:21-40): the body is the error's text; the status is the handler's
   * own code when it gave one and the sentinel's status otherwise, so it is never -1.
   */
  method ErrorProcessing(res: Response, err: Error, statusCode: int)
    modifies res
    ensures res.body == err.Message()
    ensures statusCode != NoStatus ==> res.statusCode == statusCode
    ensures statusCode == NoStatus ==> res.statusCode == SentinelStatus(err)
    ensures res.statusCode != NoStatus
  {
    res.SetBody(err.Message());
    res.SetStatusCode(statusCode);
    match err {
      case DeviceIsBusy => res.SetStatusCode(CodeDeviceIsBusy);
      case DeviceNotFound => res.SetStatusCode(CodeDeviceNotFound);
      case PortIsBusy => res.SetStatusCode(CodePortIsBusy);
      case PortNotFound => res.SetStatusCode(CodePortNotFound);
      case Failure(_) => res.SetStatusCode(StatusInternalServerError);
    }
    if statusCode != NoStatus {
      res.SetStatusCode(statusCode);
    }
  }

  /**
   * Matching is by identity, not by text: an error from a collaborator that reads exactly like
   * a not-found sentinel gets the body of one but the status 500.
   */
  lemma LookalikeIsNotSentinel()
    ensures Failure("device not found").Message() == DeviceNotFound.Message()
    ensures SentinelStatus(Failure("device not found")) == StatusInternalServerError
    ensures SentinelStatus(DeviceNotFound) == StatusNotFound
  {
  }
}
