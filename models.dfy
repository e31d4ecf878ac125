/**
 * The verification record the headless providers return. Its definition
 * lives in src/core/models.rs, which is not part of this model; the fields
 * are those the providers' struct literals fill in.
 */
module Models {

  import opened Wrappers

  datatype FoundEmailData = FoundEmailData(
    email: string,
    confidence: nat,
    source: string,
    isGeneric: bool,
    verificationStatus: Option<bool>,
    verificationMessage: string)
}
