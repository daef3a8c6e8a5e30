/** The collaborator a cron job delegates to. The platform behind it is not part
    of this model: a Sandbox here only records the requests it receives and
    answers each one with the value its `platform` function gives for that
    request and everything received before it. */
module Sandboxes {
  import opened Js

  /** What the platform sends back on success, or as the reason of a failure. */
  type Reply

  /** How a promise settles. */
  datatype Outcome = Fulfilled(value: Reply) | Rejected(reason: Reply)

  /** A request issued to the sandbox, with the properties of its argument
      object at the moment of the call. */
  datatype Request =
    | RemoveCronJob(params: JsObject)
    | GetCronJobHistory(params: JsObject)

  class Sandbox {
    /** The base URL of the cluster; callers may reassign it. */
    var url: string
    /** Every request received, oldest first. */
    var received: seq<Request>
    /** The platform's answer to a request, given all earlier requests. */
    const platform: (seq<Request>, Request) -> Outcome

    constructor (url: string, platform: (seq<Request>, Request) -> Outcome)
      ensures this.url == url && this.platform == platform && received == []
    {
      this.url := url;
      this.platform := platform;
      received := [];
    }

    method RemoveCronJob(options: JsRecord) returns (promise: Outcome)
      modifies this`received
      ensures received == old(received) + [Request.RemoveCronJob(options.props)]
      ensures promise == platform(old(received), Request.RemoveCronJob(options.props))
    {
      promise := platform(received, Request.RemoveCronJob(options.props));
      received := received + [Request.RemoveCronJob(options.props)];
    }

    method GetCronJobHistory(options: JsRecord) returns (promise: Outcome)
      modifies this`received
      ensures received == old(received) + [Request.GetCronJobHistory(options.props)]
      ensures promise == platform(old(received), Request.GetCronJobHistory(options.props))
    {
      promise := platform(received, Request.GetCronJobHistory(options.props));
      received := received + [Request.GetCronJobHistory(options.props)];
    }
  }
}
