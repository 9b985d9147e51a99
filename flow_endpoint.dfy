/** The WhatsApp Flows endpoint (app/api/flow-endpoint/route.ts, POST): one response
    per submitted screen, with the demo sign-in check and the sign-up password match. */
module FlowEndpoint {
  import opened Common

  /** The form fields a screen may submit; each may be missing. */
  datatype FlowData = FlowData(email: Option<string>, password: Option<string>, confirmPassword: Option<string>)

  /** A parsed request. `data` is `None` when the body carries no data object. */
  datatype FlowRequest = FlowRequest(screenId: Option<string>, data: Option<FlowData>)

  datatype Action = Navigate(nextScreen: string)

  /** `screen` is `None` when an absent screen id is echoed back. */
  datatype FlowResponse = FlowResponse(version: string, screen: Option<string>, data: map<string, string>, action: Option<Action>)

  const Version := "7.2"
  const DemoEmail := "test@example.com"
  const DemoPassword := "password123"

  /** The `catch` response: any failure lands on the sign-in screen. */
  const ErrorResponse := FlowResponse(Version, Some("SIGN_IN"),
    map["error_message" := "An unexpected error occurred. Please try again later."], None)

  /** The handler. `None` is a body that does not parse to an object (so destructuring
      it throws); reading fields of missing `data` on the two form screens throws too. */
  function Respond(body: Option<FlowRequest>): (r: FlowResponse)
    ensures r.version == Version
    ensures body.None? ==> r == ErrorResponse
    ensures r.action.Some? <==>
              && body.Some? && body.value.screenId == Some("SIGN_IN") && body.value.data.Some?
              && body.value.data.value.email == Some(DemoEmail) && body.value.data.value.password == Some(DemoPassword)
    ensures r.action.Some? ==> r.action == Some(Navigate("SUCCESS_SCREEN")) && r.screen == Some("SIGN_IN")
  {
    if body.None? then ErrorResponse
    else
      var req := body.value;
      if req.screenId == Some("SIGN_IN") then
        if req.data.None? then ErrorResponse
        else if req.data.value.email == Some(DemoEmail) && req.data.value.password == Some(DemoPassword) then
          FlowResponse(Version, Some("SIGN_IN"), map["status_message" := "Sign in successful! Redirecting..."],
            Some(Navigate("SUCCESS_SCREEN")))
        else
          FlowResponse(Version, Some("SIGN_IN"), map["email_error" := "Invalid email or password."], None)
      else if req.screenId == Some("SIGN_UP") then
        if req.data.None? then ErrorResponse
        else if req.data.value.password != req.data.value.confirmPassword then
          FlowResponse(Version, Some("SIGN_UP"), map["password_error" := "Passwords do not match."], None)
        else
          FlowResponse(Version, Some("SIGN_UP"), map["status_message" := "Sign up successful! Please check your email."], None)
      else
        FlowResponse(Version, req.screenId, map["status_message" := "Thank you for your submission!"], None)
  }

  /** Sign-in: the demo credentials navigate away, any others get an email error and
      stay. */
  lemma SignInOutcomes(d: FlowData)
    ensures var r := Respond(Some(FlowRequest(Some("SIGN_IN"), Some(d))));
      && r.screen == Some("SIGN_IN")
      && ("email_error" in r.data <==> !(d.email == Some(DemoEmail) && d.password == Some(DemoPassword)))
      && ("email_error" in r.data <==> r.action.None?)
  {
  }

  /** Sign-up: a password error exactly when the two passwords differ, a status
      message otherwise; never an action. Two missing passwords count as equal. */
  lemma SignUpOutcomes(d: FlowData)
    ensures var r := Respond(Some(FlowRequest(Some("SIGN_UP"), Some(d))));
      && r.screen == Some("SIGN_UP") && r.action.None?
      && ("password_error" in r.data <==> d.password != d.confirmPassword)
      && ("status_message" in r.data <==> d.password == d.confirmPassword)
  {
  }

  /** Any other screen is echoed back with the thank-you message, whatever data came
      with it. */
  lemma OtherScreensEchoed(screenId: Option<string>, data: Option<FlowData>)
    requires screenId != Some("SIGN_IN") && screenId != Some("SIGN_UP")
    ensures Respond(Some(FlowRequest(screenId, data)))
         == FlowResponse(Version, screenId, map["status_message" := "Thank you for your submission!"], None)
  {
  }

  /** The form screens without their data fail like any other error. */
  lemma MissingFormDataIsError(screenId: Option<string>)
    requires screenId == Some("SIGN_IN") || screenId == Some("SIGN_UP")
    ensures Respond(Some(FlowRequest(screenId, None))) == ErrorResponse
  {
  }
}
