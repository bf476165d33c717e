/** The fixed lines the assistant writes into the transcript.  A transcript
    entry holding one of them records which line it is; `Wording` gives the
    exact text the interface shows. */
module Lines {

  datatype Line =
    | Hello(category: string)   // the greeting for the route's category
    | AskName                   // the request for the name that follows it
    | Acknowledgement           // after the gender answer
    | AllAnswered               // after the last follow-up answer
    | ProfileCreated
    | PlanReady
    | ViewPlanNow
    | PlanFailed
    | ProfileFailed
    | NoProblem                 // a confirmation answer without "yes"
    | FlowError                 // the guided chat's `catch` block
    | RequestFailed             // the question widget, `success: false`
    | ConnectionFailed          // the question widget, a thrown error

  /** The category-specific opening sentence; any other string gets the
      default.  The four keys are looked up in a plain object, so a name
      the object inherits (`constructor`, `toString`, ...) would yield that
      inherited value instead; such names are treated here like any other
      unknown category. */
  function Greeting(category: string): string {
    if category == "lifestyle" then "Let's create a personalized lifestyle plan based on AYUSH principles."
    else if category == "health" then "I'll help you address your health concerns using AYUSH approaches."
    else if category == "diet" then "Let's develop a nutritional plan based on your constitution and AYUSH principles."
    else if category == "skin" then "I'll recommend AYUSH-based skin care routines tailored to your needs."
    else "Welcome to your AYUSH consultation."
  }

  function Wording(l: Line): string {
    match l
    case Hello(category) => "Hello! I'm your AYUSH Lifestyle Coach. " + Greeting(category)
    case AskName => "To get started, I'll need some basic information. What's your name?"
    case Acknowledgement => "Thank you for providing your basic information. Now I'll ask some more specific questions to better understand your needs."
    case AllAnswered => "Thank you for all this information! I'm now creating your personalized AYUSH profile and lifestyle plan. This will take a moment..."
    case ProfileCreated => "Your profile has been created. Now generating your personalized lifestyle plan..."
    case PlanReady => "Your personalized AYUSH lifestyle plan is ready!"
    case ViewPlanNow => "Would you like to view your complete plan now?"
    case PlanFailed => "I encountered an issue generating your plan. Let's try a simpler approach."
    case ProfileFailed => "I encountered an issue creating your profile. Let's try a different approach."
    case NoProblem => "No problem. You can view your plan anytime by clicking the 'View Plan' button. Is there anything specific you'd like to know about AYUSH practices?"
    case FlowError => "I'm sorry, I encountered an error. Please try again."
    case RequestFailed => "I'm sorry, I encountered an error processing your request. Please try again."
    case ConnectionFailed => "I'm sorry, I encountered an error. Please check your connection and try again."
  }

  /** The three apologies read differently, so a reader of the transcript
      can tell a failed request from a lost connection and from the guided
      chat's generic error. */
  lemma ApologiesDiffer()
    ensures Wording(FlowError) != Wording(RequestFailed)
    ensures Wording(FlowError) != Wording(ConnectionFailed)
    ensures Wording(RequestFailed) != Wording(ConnectionFailed)
  {
    assert |Wording(FlowError)| == 52;
    assert |Wording(RequestFailed)| == 76;
    assert |Wording(ConnectionFailed)| == 78;
  }
}
