/**
 * The page elements the headless providers look for
 * (src/verification/headless/utils/selectors.rs). One constructor per
 * selector function; the CSS and id strings behind them are not modelled.
 */
module Selectors {

  datatype Locator =
    | YahooEmailInput
    | YahooSubmitButton
    | YahooExistsRecaptcha
    | YahooExistsVerificationCode
    | YahooExistsChallengeSelector
    | YahooNotExistsError
    | YahooAccountDisabled
    | MicrosoftEmailInput
    | MicrosoftSubmitButton
    | MicrosoftExistsVerifyIdentity
    | MicrosoftExistsAuthenticator
    | MicrosoftNotExistsError1
    | MicrosoftNotExistsError2
    | MicrosoftCaptcha
}
