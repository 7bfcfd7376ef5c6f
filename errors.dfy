/** The errors thrown by the modelled code, and the message each one carries. */
module Errors {

  datatype Error =
    | NotInitialized           // processUserInput: no model client could be created
    | CredentialsMissing       // executeSOQL: token or instance URL not stored
    | QueryError(detail: string) // executeSOQL: the CRM reported a list of errors
    | UnknownCommand           // processUserInput: action outside the seven kinds
    | ClientIdMissing          // getClientId: no consumer key stored
    | ApiKeyRequired           // setupOpenAIAPI: the key prompt was dismissed or left empty
    | AuthFlowFailed           // setupSalesforceOAuth: the browser reported an error
    | NoRedirectUrl            // setupSalesforceOAuth: the flow ended without a redirect
    | CredentialsNotObtained   // setupSalesforceOAuth: the redirect lacked token or instance URL
    | Thrown(message: string)  // raised by code outside the model (HTTP client, model SDK, JSON or URL parser)

  /** The `message` of the thrown `Error`. */
  function Message(e: Error): string {
    match e
    case NotInitialized => "OpenAI API not initialized. Please check your configuration."
    case CredentialsMissing => "Salesforce credentials not found. Please reconnect to Salesforce."
    case QueryError(detail) => "Salesforce query error: " + detail
    case UnknownCommand => "Unknown command type"
    case ClientIdMissing => "Client ID not found. Please enter your Connected App Consumer Key."
    case ApiKeyRequired => "OpenAI API key is required"
    case AuthFlowFailed => "Failed to authenticate with Salesforce"
    case NoRedirectUrl => "No redirect URL received"
    case CredentialsNotObtained => "Failed to obtain Salesforce credentials"
    case Thrown(message) => message
  }
}
