/** Responses of the serverless handlers: a status code and the body sent. */
module Http {

  datatype Body =
    | NoBody                     // `res.status(n).end()`
    | Text(text: string)         // `res.send(text)`
    | ErrorJson(error: string)   // `{ error }`
    | MessageJson(message: string) // `{ message }`
    | SuccessJson                // `{ success: true }`
    | UrlJson(url: string)       // `{ url }`

  datatype Response = Response(status: int, body: Body)
}
