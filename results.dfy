/**
 * src/models/ProvisioningResult.js: the record every provisioning call
 * returns. The timestamp is a parameter instead of `new Date()`.
 */
module Results {
  import opened Js

  datatype ProvisioningResult = ProvisioningResult(status: Js, vmId: Js, provider: Js, timestamp: Js, errorMessage: Js)

  /** `new ProvisioningResult(status, vmId, provider, timestamp, errorMessage = null)`. */
  function NewResult(status: Js, vmId: Js, provider: Js, timestamp: Js, errorMessage: Js): (r: ProvisioningResult)
    ensures r.status == status && r.vmId == vmId && r.provider == provider && r.timestamp == timestamp
    ensures errorMessage == Undefined ==> r.errorMessage == Null
    ensures errorMessage != Undefined ==> r.errorMessage == errorMessage
  {
    ProvisioningResult(status, vmId, provider, timestamp, Default(errorMessage, Null))
  }

  /** The result of a successful call: no error message. */
  function SuccessResult(vmId: Js, provider: Js, timestamp: Js): (r: ProvisioningResult)
    ensures r.status == Str("success") && r.vmId == vmId && r.provider == provider && r.errorMessage == Null
  {
    NewResult(Str("success"), vmId, provider, timestamp, Undefined)
  }

  /** The result of a failed call: no VM id, and the caught error's message. */
  function ErrorResult(provider: Js, timestamp: Js, message: string): (r: ProvisioningResult)
    ensures r.status == Str("error") && r.vmId == Null && r.provider == provider
    ensures r.errorMessage == Str(message)
  {
    NewResult(Str("error"), Null, provider, timestamp, Str(message))
  }

  /** `toJSON()`: exactly the five stored fields. */
  function ToJson(r: ProvisioningResult): (j: Record)
    ensures j.Keys == {"status", "vmId", "provider", "timestamp", "errorMessage"}
    ensures j["status"] == r.status && j["vmId"] == r.vmId && j["provider"] == r.provider
    ensures j["timestamp"] == r.timestamp && j["errorMessage"] == r.errorMessage
  {
    map["status" := r.status, "vmId" := r.vmId, "provider" := r.provider, "timestamp" := r.timestamp,
        "errorMessage" := r.errorMessage]
  }

  /** `getStatus()`: the status `toJSON()` reports. */
  function GetStatus(r: ProvisioningResult): (s: Js)
    ensures s == ToJson(r)["status"]
  {
    r.status
  }

  /** `getVmId()`: the id `toJSON()` reports. */
  function GetVmId(r: ProvisioningResult): (id: Js)
    ensures id == ToJson(r)["vmId"]
  {
    r.vmId
  }

  /** `getProvider()`: the provider `toJSON()` reports. */
  function GetProvider(r: ProvisioningResult): (p: Js)
    ensures p == ToJson(r)["provider"]
  {
    r.provider
  }

  /** `getErrorMessageId()`: despite its name, the error message `toJSON()` reports. */
  function GetErrorMessageId(r: ProvisioningResult): (m: Js)
    ensures m == ToJson(r)["errorMessage"]
  {
    r.errorMessage
  }

  /** Nothing is lost in `toJSON()`: two results with the same serialised form are the same result. */
  lemma ToJsonIsInjective(a: ProvisioningResult, b: ProvisioningResult)
    requires ToJson(a) == ToJson(b)
    ensures a == b
  {
    assert ToJson(a)["status"] == ToJson(b)["status"];
    assert ToJson(a)["vmId"] == ToJson(b)["vmId"];
    assert ToJson(a)["provider"] == ToJson(b)["provider"];
    assert ToJson(a)["timestamp"] == ToJson(b)["timestamp"];
    assert ToJson(a)["errorMessage"] == ToJson(b)["errorMessage"];
  }

  /** A success and an error result are never confused: they differ in status and in the error message. */
  lemma SuccessAndErrorDiffer(vmId: Js, provider: Js, timestamp: Js, message: string)
    ensures GetStatus(SuccessResult(vmId, provider, timestamp)) != GetStatus(ErrorResult(provider, timestamp, message))
    ensures GetErrorMessageId(SuccessResult(vmId, provider, timestamp)) == Null
    ensures GetErrorMessageId(ErrorResult(provider, timestamp, message)) != Null
  {
    assert "success"[0] != "error"[0];
  }
}
