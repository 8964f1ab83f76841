/**
 * How the browser client sees a backend reply (frontend/src/utils/api.js): a reply whose status
 * is not 2xx makes the call throw, and the page code reads fields of the parsed JSON body.
 */
module Client {
  import opened Wrappers
  import opened Backend

  /** fetch's `response.ok`. */
  predicate Ok(r: Response) {
    200 <= r.code < 300
  }

  /** What an api.js call gives the page: the parsed body, or None when the call throws. */
  function Receive(r: Response): (b: Option<Body>)
    ensures b.Some? <==> Ok(r)
    ensures b.Some? ==> b.value == r.body
  {
    if Ok(r) then Some(r.body) else None
  }

  /** The JSON `success` field read as a condition; bodies without one read as undefined, which is falsy. */
  function SuccessField(b: Body): bool {
    match b
    case ErrorBody(_) => false
    case MessageBody(success, _) => success
    case AnswerBody(_) => false
    case InternalError => false
    case _ => true
  }

  /** The profile, status and question-list replies of the backend carry success: true exactly when they are 200. */
  lemma SuccessFieldOfReplies(db: Db, id: Option<string>, email: Option<string>, questionType: string)
    ensures SuccessField(UserProfile(db, id, email).body) <==> UserProfile(db, id, email).code == 200
    ensures SuccessField(QuestionStatus(db, id).body) <==> QuestionStatus(db, id).code == 200
    ensures SuccessField(GetQuestions(db, questionType, id).body) <==> GetQuestions(db, questionType, id).code == 200
  {
  }
}
