// The rules R5, R6 and R7 of SMS subscriptions (CommonSmsValidationRules).
module SmsRules {
  import opened JsonModel
  import opened Types
  import opened SliceProfileRules

  function SmsErrors(d: SmsStaticData, path: string): (es: seq<Error>)
    ensures Violations(es, path)
  {
    Check(d.mtSmsSubscribed == Some(true) || d.moSmsSubscribed == Some(true) ==> d.smsSubscribed == Some(true),
          path, SmsSubscribedNeeded)
    + Check(d.mtSmsBarringAll == Some(true) || d.mtSmsBarringRoaming == Some(true) ==> d.mtSmsSubscribed == Some(true),
            path, MtSmsSubscribedNeeded)
    + Check(d.moSmsBarringAll == Some(true) || d.moSmsBarringRoaming == Some(true) ==> d.moSmsSubscribed == Some(true),
            path, MoSmsSubscribedNeeded)
  }
}
