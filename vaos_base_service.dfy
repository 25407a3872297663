/**
 * The VAOS base service: the Referer header that tells environments apart,
 * and the route prefix chosen by the alternate-route feature flag.
 */
module VaosBaseService {
  import opened Text

  const Scheme: string := "https://"
  const ReviewInstance: string := "https://review-instance.va.gov"

  /** `referrer`: a `.gov` host with every `vets` turned into `va`; any other host gets the review-instance referrer. */
  function Referrer(hostname: string): (r: string)
    ensures StartsWith(r, Scheme)
    ensures !EndsWith(hostname, ".gov") ==> r == ReviewInstance
  {
    if EndsWith(hostname, ".gov") then
      ReplaceAllPrefix(Scheme, hostname, "vets", "va");
      ReplaceAll(Scheme + hostname, "vets", "va")
    else ReviewInstance
  }

  /** For a `.gov` host the referrer is the scheme followed by the host with every `vets` rewritten. */
  lemma GovReferrer(hostname: string)
    requires EndsWith(hostname, ".gov")
    ensures Referrer(hostname) == Scheme + ReplaceAll(hostname, "vets", "va")
  {
    ReplaceAllPrefix(Scheme, hostname, "vets", "va");
  }

  /** A `.gov` host without the letter `v` is sent as it is, behind the scheme. */
  lemma GovReferrerKeepsHost(hostname: string)
    requires EndsWith(hostname, ".gov")
    requires forall i :: 0 <= i < |hostname| ==> hostname[i] != 'v'
    ensures Referrer(hostname) == Scheme + hostname
  {
    GovReferrer(hostname);
    ReplaceAllAbsent(hostname, "vets", "va");
  }

  /** `base_vaos_route`: the alternate route exactly when the flag is on for the user. */
  function BaseVaosRoute(alternateRouteEnabled: bool): (r: string)
    ensures r == "vaos-alt/v1" <==> alternateRouteEnabled
    ensures StartsWith(r, "vaos")
  {
    if alternateRouteEnabled then "vaos-alt/v1" else "vaos/v1"
  }
}
