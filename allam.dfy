/** The `ALLaM` client object, as far as its own state goes. */
module Allam {
  import opened Wrappers
  import opened Parameters

  class ALLaM {
    /** The generation parameters handed to the hosted model. */
    const parameters: map<string, Value>

    /** `ALLaM.__init__`: the defaults, overridden by whatever the caller supplies. */
    constructor (parameters: Option<map<string, Value>>)
      ensures this.parameters.Keys == DefaultParameters.Keys + parameters.GetOr(map[]).Keys
      ensures forall k :: k in parameters.GetOr(map[]) ==> this.parameters[k] == parameters.GetOr(map[])[k]
      ensures forall k :: k in DefaultParameters && k !in parameters.GetOr(map[]) ==>
        this.parameters[k] == DefaultParameters[k]
    {
      this.parameters := Merge(DefaultParameters, parameters);
    }
  }
}
