/** The records of the gallery (types.ts): users and their uploaded artworks. */
module Types {

  /** An optional value; models a TypeScript property declared with `?`. */
  datatype Option<T> = None | Some(value: T)

  /** A registered user. The username is what logins and public profiles look up. */
  datatype User = User(
    id: string,
    username: string,
    email: string,
    displayName: string,
    bio: Option<string>,
    avatarUrl: Option<string>)

  /** One uploaded artwork. `username` is a copy of the owner's username taken at upload time,
      `createdAt` is milliseconds since the epoch, `critique` the optional generated commentary. */
  datatype Artwork = Artwork(
    id: string,
    userId: string,
    username: string,
    title: string,
    description: string,
    imageUrl: string,
    createdAt: int,
    critique: Option<string>)
}
