/** The backend's records (backend/internal/models/models.go). */
module Models {

  /** A stored account. `password` holds the bcrypt hash, never the plaintext; `createdAt` is a clock reading. */
  datatype User = User(
    id: string,
    name: string,
    username: string,
    email: string,
    password: string,
    createdAt: int)

  datatype LoginRequest = LoginRequest(username: string, password: string)

  datatype RegisterRequest = RegisterRequest(name: string, username: string, email: string, password: string)

  /** A catalogue entry as the upstream product API returns it; prices and ratings are kept as reals. */
  datatype Product = Product(
    id: int,
    title: string,
    description: string,
    price: real,
    rating: real,
    stock: int,
    brand: string,
    category: string,
    thumbnail: string,
    images: seq<string>)
}
