/** The account constants of the video-indexing client (`Consts` in
    vi_client/consts.py): a dataclass of six strings whose `__post_init__`
    rejects a record that misses the subscription, the account name or the
    resource group. */
module Consts {
  import opened Wrappers
  import opened PyValues

  /** The six fields of the dataclass, in declaration order. */
  datatype Consts = Consts(
    apiVersion: PyStr,
    apiEndpoint: PyStr,
    azureResourceManager: PyStr,
    accountName: PyStr,
    resourceGroup: PyStr,
    subscriptionId: PyStr)

  /** The only error `__post_init__` raises. */
  datatype ConstsError = ValueError

  /** The fields that `__post_init__` checks are all truthy. */
  predicate Valid(c: Consts) {
    Truthy(c.subscriptionId) && Truthy(c.accountName) && Truthy(c.resourceGroup)
  }

  /** Constructing the dataclass: the generated `__init__` stores the six
      arguments, then `__post_init__` raises `ValueError` unless the
      subscription, the account name and the resource group are all truthy. */
  function NewConsts(apiVersion: PyStr, apiEndpoint: PyStr, azureResourceManager: PyStr,
                     accountName: PyStr, resourceGroup: PyStr, subscriptionId: PyStr)
    : (r: Result<Consts, ConstsError>)
    ensures !Truthy(subscriptionId) ==> r == Failure(ValueError)
    ensures !Truthy(accountName) ==> r == Failure(ValueError)
    ensures !Truthy(resourceGroup) ==> r == Failure(ValueError)
    ensures Truthy(subscriptionId) && Truthy(accountName) && Truthy(resourceGroup) ==>
              r == Success(Consts(apiVersion, apiEndpoint, azureResourceManager,
                                  accountName, resourceGroup, subscriptionId))
    ensures r.Success? ==> Valid(r.value)
  {
    var c := Consts(apiVersion, apiEndpoint, azureResourceManager, accountName, resourceGroup, subscriptionId);
    if !Valid(c) then
      Failure(ValueError)
    else
      Success(c)
  }

  /** Whether construction succeeds depends only on the three checked fields:
      the API version, the endpoint and the resource-manager URL never matter. */
  lemma OutcomeIgnoresUncheckedFields(v1: PyStr, e1: PyStr, m1: PyStr, v2: PyStr, e2: PyStr, m2: PyStr,
                                      accountName: PyStr, resourceGroup: PyStr, subscriptionId: PyStr)
    ensures NewConsts(v1, e1, m1, accountName, resourceGroup, subscriptionId).Success?
        <==> NewConsts(v2, e2, m2, accountName, resourceGroup, subscriptionId).Success?
  {
  }

  /** Every valid record is exactly what constructing it from its own fields
      gives back: validation neither rejects nor alters it. */
  lemma ValidRoundTrip(c: Consts)
    requires Valid(c)
    ensures NewConsts(c.apiVersion, c.apiEndpoint, c.azureResourceManager,
                      c.accountName, c.resourceGroup, c.subscriptionId) == Success(c)
  {
  }
}
