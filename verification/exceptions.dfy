/** The exceptions the viewer's code can throw, and the two ways a modelled
    operation reports them: an `Outcome` for members that return nothing, a
    `Result` for members that return a value. A thrown exception unwinds the
    call, so whatever the operation had not yet assigned stays as it was. */
module Exceptions {

  datatype Exception =
    | InvalidVector                 // XnaExtentions.Validate: "Vector {0} is not valid"
    | ComponentIndexOutOfRange      // XnaExtentions.Components: index outside 0..2
    | IndexOutOfRange               // reading past the end of a C# array
    | VertexCountNotMultipleOfThree // XnaExtentions.ReverseFacedTriangles
    | UpdateNotImplemented          // Object3D.Update on an object that requires updates
    | UpdateNotRequired             // Object3D.Update on an object that does not

  datatype Outcome = Completed | Threw(error: Exception)

  datatype Result<T> = Ok(value: T) | Err(error: Exception)

  datatype Option<T> = None | Some(value: T)
}
